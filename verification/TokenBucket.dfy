/**
 The token bucket of the rate-shaped sender, as a function of the times at which it is asked.
 A run visits the windows of a schedule in order; in each visit the bucket is refilled at the
 window's rate and grants a message when it holds enough. The bucket never grants more than
 one burst and what its fastest rate earns, within a window no more than one burst and what
 that window's own rate earns, and it follows the schedule's rate over a whole run exactly
 when the schedule is constant or idle.
 */
module TokenBucket {
  import opened Counting

  const NS_PER_SEC: real := 1000000000.0
  const RATE_EPSILON: real := 1.0

  /** Tokens earned at a rate in bytes per second over some nanoseconds. */
  function Earned(rate: real, ns: nat): real {
    ns as real / NS_PER_SEC * rate
  }

  lemma {:induction false} EarnedGrows(rate: real, most: real, ns: nat)
    requires 0.0 <= rate <= most
    ensures 0.0 <= Earned(rate, ns) <= Earned(most, ns)
  {
    var s := ns as real / NS_PER_SEC;
    assert 0.0 <= s * rate && s * (most - rate) >= 0.0;
    assert s * most == s * rate + s * (most - rate);
  }

  lemma {:induction false} EarnedAdds(rate: real, a: nat, b: nat)
    ensures Earned(rate, a + b) == Earned(rate, a) + Earned(rate, b)
  {
    var x, y := a as real / NS_PER_SEC, b as real / NS_PER_SEC;
    assert (a + b) as real / NS_PER_SEC == x + y;
    assert (x + y) * rate == x * rate + y * rate;
  }

  /**
   Sends k..j inclusive, each of `size` bytes and granted at the logged times, fit into one
   burst and what the fastest rate earns between them.
   */
  ghost predicate IntervalBound(log: seq<nat>, size: nat, burst: real, most: real) {
    forall i, j :: 0 <= i <= j < |log| ==>
      log[i] <= log[j] && ((j - i + 1) * size) as real <= burst + Earned(most, log[j] - log[i])
  }

  /** What has been granted since any grant, plus what is left, is covered up to `last`. */
  ghost predicate Covered(log: seq<nat>, size: nat, burst: real, most: real, tokens: real, last: nat) {
    forall i :: 0 <= i < |log| ==>
      log[i] <= last && ((|log| - i) * size) as real + tokens <= burst + Earned(most, last - log[i])
  }

  /** Everything granted since `start`, plus what is left, is covered up to `last`. */
  ghost predicate Afforded(log: seq<nat>, size: nat, burst: real, most: real, tokens: real, start: nat, last: nat) {
    start <= last && (|log| * size) as real + tokens <= burst + Earned(most, last - start)
  }

  /** A refill earns at most what the fastest rate earns, so coverage moves on with the clock. */
  lemma {:induction false} RefillCovers(log: seq<nat>, size: nat, burst: real, most: real, tokens: real, last: nat, start: nat,
                     filled: real, now: nat)
    requires Covered(log, size, burst, most, tokens, last) && Afforded(log, size, burst, most, tokens, start, last)
    requires last <= now && filled <= tokens + Earned(most, now - last)
    ensures Covered(log, size, burst, most, filled, now) && Afforded(log, size, burst, most, filled, start, now)
  {
    hide Earned;
    forall i | 0 <= i < |log|
      ensures log[i] <= now && ((|log| - i) * size) as real + filled <= burst + Earned(most, now - log[i])
    {
      EarnedAdds(most, last - log[i], now - last);
      assert last - log[i] + (now - last) == now - log[i];
    }
    EarnedAdds(most, last - start, now - last);
    assert last - start + (now - last) == now - start;
  }

  /** A grant is paid for by tokens. */
  lemma {:induction false} GrantCovers(log: seq<nat>, size: nat, burst: real, most: real, tokens: real, last: nat, start: nat)
    requires Covered(log, size, burst, most, tokens, last) && Afforded(log, size, burst, most, tokens, start, last)
    requires IntervalBound(log, size, burst, most) && size as real <= tokens <= burst
    ensures var more := log + [last]; var left := tokens - size as real;
            && Covered(more, size, burst, most, left, last) && Afforded(more, size, burst, most, left, start, last)
            && IntervalBound(more, size, burst, most)
  {
    hide Earned;
    var more, n := log + [last], |log|;
    assert Earned(most, 0) == 0.0 by { EarnedAdds(most, 0, 0); }
    forall i | 0 <= i < |more|
      ensures more[i] <= last && ((|more| - i) * size) as real <= burst + Earned(most, last - more[i]) - (tokens - size as real)
    {
      assert (n + 1 - i) * size == (n - i) * size + size;
    }
    assert (n + 1) * size == n * size + size;
    forall i, j | 0 <= i <= j < |more|
      ensures more[i] <= more[j] && ((j - i + 1) * size) as real <= burst + Earned(most, more[j] - more[i])
    {
      if j < n {
        assert more[i] == log[i] && more[j] == log[j];
      }
    }
  }

  // ---------- one run ----------

  /** Tokens, the time of the last refill, and the times of all grants. */
  datatype Bucket = Bucket(tokens: real, last: nat, grants: seq<nat>)

  function Capped(x: real, limit: real): real { if x > limit then limit else x }

  function Refilled(b: Bucket, burst: real, rate: real, at: nat): Bucket {
    b.(tokens := Capped(b.tokens + Earned(rate, if b.last <= at then at - b.last else 0), burst), last := at)
  }

  /** Refill at the current rate, and grant a message if there are tokens for it. */
  function Take(b: Bucket, size: nat, burst: real, rate: real, at: nat): Bucket {
    var filled := Refilled(b, burst, rate, at);
    if filled.tokens >= size as real then filled.(tokens := filled.tokens - size as real, grants := b.grants + [at]) else filled
  }

  function Takes(b: Bucket, size: nat, burst: real, rate: real, times: seq<nat>): Bucket {
    if times == [] then b
    else Take(Takes(b, size, burst, rate, times[..|times| - 1]), size, burst, rate, times[|times| - 1])
  }

  /** One window of the run: when its rate was set, and when the bucket was asked. */
  datatype Visit = Visit(begin: nat, takes: seq<nat>)
  {
    function End(): nat { if takes == [] then begin else takes[|takes| - 1] }

    /** The clock before the i-th time the bucket is asked. */
    function Before(i: nat): nat
      requires i <= |takes|
    {
      if i == 0 then begin else takes[i - 1]
    }
  }

  function RateOf(rates: seq<real>, w: nat): real
    requires rates != []
  {
    rates[w % |rates|]
  }

  function WindowStart(startTime: nat, w: nat, windowNs: nat): nat { startTime + w * windowNs }

  function Replay(size: nat, burst: real, rates: seq<real>, startTime: nat, visits: seq<Visit>): Bucket
    requires rates != []
  {
    if visits == [] then Bucket(burst, startTime, [])
    else
      var w := |visits| - 1;
      Takes(Replay(size, burst, rates, startTime, visits[..w]), size, burst, RateOf(rates, w), visits[w].takes)
  }

  /** Within a visit the clock moves on, and the bucket is asked only while the window was seen to be open. */
  ghost predicate VisitOk(v: Visit, rate: real, windowStart: nat, windowEnd: nat) {
    && windowStart <= v.begin
    && (v.takes != [] ==> rate >= RATE_EPSILON)
    && (forall i :: 0 <= i < |v.takes| ==> v.Before(i) <= v.takes[i] && v.Before(i) < windowEnd)
  }

  ghost predicate Conforms(rates: seq<real>, windowNs: nat, startTime: nat, visits: seq<Visit>)
    requires rates != []
  {
    forall w :: 0 <= w < |visits| ==>
      && VisitOk(visits[w], RateOf(rates, w), WindowStart(startTime, w, windowNs), WindowStart(startTime, w + 1, windowNs))
      && (w > 0 ==> visits[w - 1].End() <= visits[w].begin)
  }

  ghost predicate Within(rates: seq<real>, capacity: real) {
    forall k :: 0 <= k < |rates| ==> 0.0 <= rates[k] <= capacity
  }

  /** What every reachable bucket satisfies, against any rate that bounds the rates used since `start`. */
  ghost predicate Sane(b: Bucket, size: nat, burst: real, most: real, start: nat) {
    && 0.0 <= b.tokens <= burst
    && IntervalBound(b.grants, size, burst, most)
    && Covered(b.grants, size, burst, most, b.tokens, b.last)
    && Afforded(b.grants, size, burst, most, b.tokens, start, b.last)
  }

  lemma {:induction false} TakeSane(b: Bucket, size: nat, burst: real, rate: real, most: real, start: nat, at: nat)
    requires Sane(b, size, burst, most, start) && 0.0 <= rate <= most && b.last <= at
    ensures Sane(Take(b, size, burst, rate, at), size, burst, most, start)
  {
    hide Earned, IntervalBound, Covered, Afforded;
    EarnedGrows(rate, most, at - b.last);
    var filled := Refilled(b, burst, rate, at);
    RefillCovers(b.grants, size, burst, most, b.tokens, b.last, start, filled.tokens, at);
    if filled.tokens >= size as real {
      GrantCovers(b.grants, size, burst, most, filled.tokens, at, start);
    }
  }

  function Previous(from: nat, times: seq<nat>, i: nat): nat
    requires i <= |times|
  {
    if i == 0 then from else times[i - 1]
  }

  ghost predicate Ordered(from: nat, times: seq<nat>) {
    forall i :: 0 <= i < |times| ==> Previous(from, times, i) <= times[i]
  }

  lemma {:induction false} OrderedPrefix(from: nat, times: seq<nat>)
    requires Ordered(from, times) && times != []
    ensures Ordered(from, times[..|times| - 1]) && Previous(from, times, |times| - 1) <= times[|times| - 1]
  {
    var n := |times| - 1;
    forall i | 0 <= i < n ensures Previous(from, times[..n], i) <= times[..n][i] {
      assert Previous(from, times, i) <= times[i];
    }
  }

  lemma {:induction false} TakesSane(b: Bucket, size: nat, burst: real, rate: real, most: real, start: nat, times: seq<nat>)
    requires Sane(b, size, burst, most, start) && 0.0 <= rate <= most && Ordered(b.last, times)
    ensures var after := Takes(b, size, burst, rate, times);
            Sane(after, size, burst, most, start) && after.last == if times == [] then b.last else times[|times| - 1]
  {
    hide Sane, Ordered;
    if times != [] {
      var n := |times| - 1;
      OrderedPrefix(b.last, times);
      TakesSane(b, size, burst, rate, most, start, times[..n]);
      TakeSane(Takes(b, size, burst, rate, times[..n]), size, burst, rate, most, start, times[n]);
    }
  }

  /** The bucket's last refill is not after the last moment of the run. */
  ghost predicate InTime(b: Bucket, startTime: nat, visits: seq<Visit>) {
    b.last <= if visits == [] then startTime else visits[|visits| - 1].End()
  }

  lemma {:induction false} NextTimes(b: Bucket, startTime: nat, rates: seq<real>, windowNs: nat, visits: seq<Visit>)
    requires rates != [] && visits != [] && Conforms(rates, windowNs, startTime, visits)
    requires InTime(b, startTime, visits[..|visits| - 1])
    ensures Ordered(b.last, visits[|visits| - 1].takes) && b.last <= visits[|visits| - 1].End()
    ensures Conforms(rates, windowNs, startTime, visits[..|visits| - 1])
  {
    var w := |visits| - 1;
    var v := visits[w];
    assert VisitOk(v, RateOf(rates, w), WindowStart(startTime, w, windowNs), WindowStart(startTime, w + 1, windowNs));
    forall i | 0 <= i < |v.takes| ensures v.begin <= v.takes[i] {
      Later(v, i);
    }
  }

  lemma {:induction false} Later(v: Visit, i: nat)
    requires i < |v.takes| && forall k :: 0 <= k < |v.takes| ==> v.Before(k) <= v.takes[k]
    ensures v.begin <= v.takes[i]
  {
    assert v.Before(i) <= v.takes[i];
    if i > 0 {
      Later(v, i - 1);
    }
  }

  /**
   Over every run: tokens stay within the burst, and every interval of grants, as well as the
   whole run, fits into one burst and what the fastest rate earns.
   */
  lemma {:induction false} RunsAreSane(size: nat, burst: real, rates: seq<real>, most: real, windowNs: nat, startTime: nat, visits: seq<Visit>)
    requires rates != [] && Within(rates, most) && burst >= 0.0 && Conforms(rates, windowNs, startTime, visits)
    ensures var b := Replay(size, burst, rates, startTime, visits);
            Sane(b, size, burst, most, startTime) && InTime(b, startTime, visits)
    decreases |visits|
  {
    if visits == [] {
      assert Earned(most, 0) == 0.0 by { EarnedAdds(most, 0, 0); }
    } else {
      hide Sane, Earned, Conforms;
      var w := |visits| - 1;
      var before := Replay(size, burst, rates, startTime, visits[..w]);
      ConformsPrefix(rates, windowNs, startTime, visits);
      RunsAreSane(size, burst, rates, most, windowNs, startTime, visits[..w]);
      NextTimes(before, startTime, rates, windowNs, visits);
      TakesSane(before, size, burst, RateOf(rates, w), most, startTime, visits[w].takes);
    }
  }

  lemma {:induction false} ConformsPrefix(rates: seq<real>, windowNs: nat, startTime: nat, visits: seq<Visit>)
    requires rates != [] && visits != [] && Conforms(rates, windowNs, startTime, visits)
    ensures Conforms(rates, windowNs, startTime, visits[..|visits| - 1])
  {
  }

  // ---------- where the tokens go ----------

  /** The tokens left and the tokens paid for grants. */
  function Worth(b: Bucket, size: nat): real {
    b.tokens + (|b.grants| * size) as real
  }

  /** What a refill cannot add because the bucket is full. */
  function Overflow(b: Bucket, burst: real, rate: real, at: nat): real
    requires b.last <= at
  {
    var all := b.tokens + Earned(rate, at - b.last);
    if all > burst then all - burst else 0.0
  }

  /** Asking the bucket moves tokens: earned ones are left, paid for a grant or lost to a full bucket; too few are left alone. */
  lemma {:induction false} TakeBalances(b: Bucket, size: nat, burst: real, rate: real, at: nat)
    requires b.last <= at
    ensures var after := Take(b, size, burst, rate, at);
            && Worth(after, size) + Overflow(b, burst, rate, at) == Worth(b, size) + Earned(rate, at - b.last)
            && after.last == at && (after.grants == b.grants || after.grants == b.grants + [at])
            && (after.grants == b.grants ==> after.tokens < size as real)
            && Overflow(b, burst, rate, at) >= 0.0
  {
    assert (|b.grants| + 1) * size == |b.grants| * size + size;
  }

  /** What is lost to a full bucket over the times it is asked. */
  function Spilled(b: Bucket, size: nat, burst: real, rate: real, times: seq<nat>): real {
    if times == [] then 0.0
    else
      var n := |times| - 1;
      var before := Takes(b, size, burst, rate, times[..n]);
      Spilled(b, size, burst, rate, times[..n]) + if before.last <= times[n] then Overflow(before, burst, rate, times[n]) else 0.0
  }

  lemma {:induction false} TakesBalance(b: Bucket, size: nat, burst: real, rate: real, times: seq<nat>)
    requires Ordered(b.last, times)
    ensures var after := Takes(b, size, burst, rate, times);
            && after.last == (if times == [] then b.last else times[|times| - 1]) && b.last <= after.last
            && Worth(after, size) + Spilled(b, size, burst, rate, times) == Worth(b, size) + Earned(rate, after.last - b.last)
            && Spilled(b, size, burst, rate, times) >= 0.0
  {
    hide Earned, Take, Worth, Ordered, Overflow;
    if times == [] {
      EarnedAdds(rate, 0, 0);
    } else {
      var n := |times| - 1;
      OrderedPrefix(b.last, times);
      TakesBalance(b, size, burst, rate, times[..n]);
      var before := Takes(b, size, burst, rate, times[..n]);
      TakeBalances(before, size, burst, rate, times[n]);
      EarnedAdds(rate, before.last - b.last, times[n] - before.last);
      assert before.last - b.last + (times[n] - before.last) == times[n] - b.last;
    }
  }

  /** What a run earns: all time from one refill to the next at the rate of the window of the second. */
  function Charged(size: nat, burst: real, rates: seq<real>, startTime: nat, visits: seq<Visit>): real
    requires rates != []
  {
    if visits == [] then 0.0
    else
      var w := |visits| - 1;
      var from, to := Replay(size, burst, rates, startTime, visits[..w]).last, Replay(size, burst, rates, startTime, visits).last;
      Charged(size, burst, rates, startTime, visits[..w]) + if from <= to then Earned(RateOf(rates, w), to - from) else 0.0
  }

  /** What a run loses to a full bucket. */
  function Lost(size: nat, burst: real, rates: seq<real>, startTime: nat, visits: seq<Visit>): real
    requires rates != []
  {
    if visits == [] then 0.0
    else
      var w := |visits| - 1;
      Lost(size, burst, rates, startTime, visits[..w])
      + Spilled(Replay(size, burst, rates, startTime, visits[..w]), size, burst, RateOf(rates, w), visits[w].takes)
  }

  /** Over every run no token is made or lost: the first burst and all that is earned is left, granted or spilled. */
  lemma {:induction false} RunsBalance(size: nat, burst: real, rates: seq<real>, most: real, windowNs: nat, startTime: nat, visits: seq<Visit>)
    requires rates != [] && Within(rates, most) && burst >= 0.0 && Conforms(rates, windowNs, startTime, visits)
    ensures Worth(Replay(size, burst, rates, startTime, visits), size) + Lost(size, burst, rates, startTime, visits)
         == burst + Charged(size, burst, rates, startTime, visits)
    ensures Lost(size, burst, rates, startTime, visits) >= 0.0
    decreases |visits|
  {
    hide Earned, Conforms, Spilled, Takes, RateOf, Worth;
    if visits == [] {
      NoGrants(size, burst, startTime);
    } else {
      var w := |visits| - 1;
      var before := Replay(size, burst, rates, startTime, visits[..w]);
      ConformsPrefix(rates, windowNs, startTime, visits);
      RunsAreSane(size, burst, rates, most, windowNs, startTime, visits[..w]);
      RunsBalance(size, burst, rates, most, windowNs, startTime, visits[..w]);
      NextTimes(before, startTime, rates, windowNs, visits);
      TakesBalance(before, size, burst, RateOf(rates, w), visits[w].takes);
    }
  }

  lemma {:induction false} NoGrants(size: nat, burst: real, startTime: nat)
    ensures Worth(Bucket(burst, startTime, []), size) == burst
  {
  }

  /** What was granted before does not matter to what is granted next. */
  lemma {:induction false} Forget(b: Bucket, size: nat, burst: real, rate: real, times: seq<nat>)
    ensures var fresh' := Takes(b.(grants := []), size, burst, rate, times);
            Takes(b, size, burst, rate, times) == fresh'.(grants := b.grants + fresh'.grants)
  {
    hide Refilled;
    if times == [] {
      assert b.grants + [] == b.grants;
    } else {
      var n := |times| - 1;
      Forget(b, size, burst, rate, times[..n]);
      var after := Takes(b.(grants := []), size, burst, rate, times[..n]);
      TakeForgets(after, b.grants, size, burst, rate, times[n]);
    }
  }

  lemma {:induction false} TakeForgets(b: Bucket, earlier: seq<nat>, size: nat, burst: real, rate: real, at: nat)
    ensures var one := Take(b, size, burst, rate, at);
            Take(b.(grants := earlier + b.grants), size, burst, rate, at) == one.(grants := earlier + one.grants)
  {
    assert earlier + b.grants + [at] == earlier + (b.grants + [at]);
  }

  /** The grants of window w. */
  function GrantsOf(size: nat, burst: real, rates: seq<real>, startTime: nat, visits: seq<Visit>, w: nat): seq<nat>
    requires rates != [] && w < |visits|
  {
    var before := Replay(size, burst, rates, startTime, visits[..w]);
    Takes(before.(grants := []), size, burst, RateOf(rates, w), visits[w].takes).grants
  }

  /** Every window, by its own rate: its grants fit into one burst and what that rate earns between them. */
  lemma {:induction false} WindowBound(size: nat, burst: real, rates: seq<real>, most: real, windowNs: nat, startTime: nat, visits: seq<Visit>, w: nat)
    requires rates != [] && Within(rates, most) && burst >= 0.0 && Conforms(rates, windowNs, startTime, visits) && w < |visits|
    ensures IntervalBound(GrantsOf(size, burst, rates, startTime, visits, w), size, burst, RateOf(rates, w))
    ensures Replay(size, burst, rates, startTime, visits[..w + 1]).grants
         == Replay(size, burst, rates, startTime, visits[..w]).grants + GrantsOf(size, burst, rates, startTime, visits, w)
  {
    hide Earned, Takes;
    var upto, rate := visits[..w + 1], RateOf(rates, w);
    assert upto[..w] == visits[..w];
    var before := Replay(size, burst, rates, startTime, visits[..w]);
    RunsAreSane(size, burst, rates, most, windowNs, startTime, visits[..w]);
    NextTimes(before, startTime, rates, windowNs, upto);
    assert Earned(rate, 0) == 0.0 by { EarnedAdds(rate, 0, 0); }
    TakesSane(before.(grants := []), size, burst, rate, rate, before.last, visits[w].takes);
    Forget(before, size, burst, rate, visits[w].takes);
  }

  // ---------- the rate over a whole run ----------

  /** What the schedule earns in its first windows, and up to a time. */
  function Windows(rates: seq<real>, windowNs: nat, n: nat): real
    requires rates != []
  {
    if n == 0 then 0.0 else Windows(rates, windowNs, n - 1) + Earned(RateOf(rates, n - 1), windowNs)
  }

  function Scheduled(rates: seq<real>, windowNs: nat, elapsed: nat): real
    requires rates != [] && windowNs > 0
  {
    Windows(rates, windowNs, elapsed / windowNs) + Earned(RateOf(rates, elapsed / windowNs), elapsed % windowNs)
  }

  /** The bytes of a run are within one burst and what the schedule earns over the run. */
  ghost predicate FollowsSchedule(size: nat, burst: real, rates: seq<real>, windowNs: nat, startTime: nat, visits: seq<Visit>)
    requires rates != [] && windowNs > 0
  {
    var b := Replay(size, burst, rates, startTime, visits);
    startTime <= b.last && (|b.grants| * size) as real <= burst + Scheduled(rates, windowNs, b.last - startTime)
  }

  /** The schedule bounds the bytes, whatever the message size, the burst and the environment. */
  ghost predicate ScheduleBounds(rates: seq<real>, windowNs: nat)
    requires rates != [] && windowNs > 0
  {
    forall size: nat, burst: real, startTime: nat, visits: seq<Visit> ::
      burst >= 0.0 && Conforms(rates, windowNs, startTime, visits) ==> FollowsSchedule(size, burst, rates, windowNs, startTime, visits)
  }

  predicate Constant(rates: seq<real>) {
    forall k :: 0 <= k < |rates| ==> rates[k] == rates[0]
  }

  predicate AllIdle(rates: seq<real>) {
    forall k :: 0 <= k < |rates| ==> rates[k] < RATE_EPSILON
  }

  lemma {:induction false} WindowsConstant(rates: seq<real>, windowNs: nat, n: nat)
    requires rates != [] && Constant(rates)
    ensures Windows(rates, windowNs, n) == Earned(rates[0], n * windowNs)
  {
    hide Earned;
    if n == 0 {
      EarnedAdds(rates[0], 0, 0);
    } else {
      WindowsConstant(rates, windowNs, n - 1);
      EarnedAdds(rates[0], (n - 1) * windowNs, windowNs);
      assert n * windowNs == (n - 1) * windowNs + windowNs;
    }
  }

  lemma {:induction false} ConstantFollows(size: nat, burst: real, rates: seq<real>, windowNs: nat, startTime: nat, visits: seq<Visit>)
    requires rates != [] && windowNs > 0 && Constant(rates) && rates[0] >= 0.0
    requires burst >= 0.0 && Conforms(rates, windowNs, startTime, visits)
    ensures FollowsSchedule(size, burst, rates, windowNs, startTime, visits)
  {
    hide Earned, Conforms, Replay, Windows;
    RunsAreSane(size, burst, rates, rates[0], windowNs, startTime, visits);
    var t := Replay(size, burst, rates, startTime, visits).last - startTime;
    WindowsConstant(rates, windowNs, t / windowNs);
    EarnedAdds(rates[0], t / windowNs * windowNs, t % windowNs);
    assert t / windowNs * windowNs + t % windowNs == t;
  }

  lemma {:induction false} IdleGrantsNothing(size: nat, burst: real, rates: seq<real>, windowNs: nat, startTime: nat, visits: seq<Visit>)
    requires rates != [] && AllIdle(rates) && Conforms(rates, windowNs, startTime, visits)
    ensures Replay(size, burst, rates, startTime, visits) == Bucket(burst, startTime, [])
    decreases |visits|
  {
    if visits != [] {
      var w := |visits| - 1;
      IdleGrantsNothing(size, burst, rates, windowNs, startTime, visits[..w]);
      assert VisitOk(visits[w], RateOf(rates, w), WindowStart(startTime, w, windowNs), WindowStart(startTime, w + 1, windowNs));
    }
  }

  lemma {:induction false} WindowsNonNegative(rates: seq<real>, most: real, windowNs: nat, n: nat)
    requires rates != [] && Within(rates, most)
    ensures Windows(rates, windowNs, n) >= 0.0
  {
    if n > 0 {
      WindowsNonNegative(rates, most, windowNs, n - 1);
      EarnedGrows(RateOf(rates, n - 1), most, windowNs);
    }
  }

  /** Constant and idle schedules bound the bytes of every run. */
  lemma {:induction false} BoundsHold(rates: seq<real>, most: real, windowNs: nat)
    requires rates != [] && windowNs > 0 && Within(rates, most) && (Constant(rates) || AllIdle(rates))
    ensures ScheduleBounds(rates, windowNs)
  {
    hide Earned, Conforms, Replay, Windows, FollowsSchedule;
    forall size: nat, burst: real, startTime: nat, visits: seq<Visit> | burst >= 0.0 && Conforms(rates, windowNs, startTime, visits)
      ensures FollowsSchedule(size, burst, rates, windowNs, startTime, visits)
    {
      if Constant(rates) {
        ConstantFollows(size, burst, rates, windowNs, startTime, visits);
      } else {
        IdleFollows(size, burst, rates, most, windowNs, startTime, visits);
      }
    }
  }

  lemma {:induction false} IdleFollows(size: nat, burst: real, rates: seq<real>, most: real, windowNs: nat, startTime: nat, visits: seq<Visit>)
    requires rates != [] && windowNs > 0 && Within(rates, most) && AllIdle(rates)
    requires burst >= 0.0 && Conforms(rates, windowNs, startTime, visits)
    ensures FollowsSchedule(size, burst, rates, windowNs, startTime, visits)
  {
    hide Conforms, Replay;
    IdleGrantsNothing(size, burst, rates, windowNs, startTime, visits);
    assert 0 * size == 0;
    assert 0 / windowNs == 0 && 0 % windowNs == 0;
    EarnedGrows(RateOf(rates, 0), most, 0);
  }

  /** How far the schedule stays behind its fastest rate over some cycles from window `from` on. */
  lemma {:induction false} BehindFastest(rates: seq<real>, most: real, low: nat, windowNs: nat, from: nat, cycles: nat)
    returns (end: nat)
    requires rates != [] && Within(rates, most) && low < |rates|
    ensures end >= from
    ensures Windows(rates, windowNs, end) + cycles as real * Earned(most - rates[low], windowNs)
         <= Windows(rates, windowNs, from) + Earned(most, (end - from) * windowNs)
    decreases cycles
  {
    hide Earned, Windows;
    var n, gap := |rates|, Earned(most - rates[low], windowNs);
    if cycles == 0 {
      end := from;
      EarnedAdds(most, 0, 0);
      assert 0 as real * gap == 0.0 && 0 * windowNs == 0;
    } else {
      var at := BehindFastest(rates, most, low, windowNs, from, cycles - 1);
      end := at + n;
      OneCycle(rates, most, low, windowNs, at);
      TwoParts(at - from, n, windowNs);
      EarnedAdds(most, (at - from) * windowNs, n * windowNs);
      Distribute(cycles - 1, gap);
    }
  }

  lemma {:induction false} TwoParts(a: nat, b: nat, c: nat)
    ensures (a + b) * c == a * c + b * c
  {
  }

  lemma {:induction false} Distribute(d: nat, t: real)
    ensures (d + 1) as real * t == d as real * t + t
  {
    assert (d + 1) as real == d as real + 1.0;
  }

  lemma {:induction false} AtMostFastest(rates: seq<real>, most: real, windowNs: nat, at: nat, n: nat)
    requires rates != [] && Within(rates, most)
    ensures Windows(rates, windowNs, at + n) <= Windows(rates, windowNs, at) + Earned(most, n * windowNs)
    decreases n
  {
    hide Earned;
    if n == 0 {
      EarnedAdds(most, 0, 0);
      assert 0 * windowNs == 0;
    } else {
      AtMostFastest(rates, most, windowNs, at, n - 1);
      EarnedGrows(RateOf(rates, at + n - 1), most, windowNs);
      EarnedAdds(most, (n - 1) * windowNs, windowNs);
      assert n * windowNs == (n - 1) * windowNs + windowNs;
    }
  }

  /** In any full cycle the window `low` comes up. */
  lemma {:induction false} ComesUp(n: nat, low: nat, at: nat) returns (k: nat)
    requires low < n
    ensures at <= k < at + n && k % n == low
  {
    DivMod(at, n);
    var q, r := at / n, at % n;
    var base := q * n;
    if r <= low {
      k := base + low;
      QuotientOf(n, q, low);
    } else {
      k := base + n + low;
      assert (q + 1) * n == base + n;
      QuotientOf(n, q + 1, low);
    }
  }

  lemma {:induction false} EarnedDifference(rate: real, most: real, ns: nat)
    ensures Earned(rate, ns) + Earned(most - rate, ns) == Earned(most, ns)
  {
    var s := ns as real / NS_PER_SEC;
    assert s * rate + s * (most - rate) == s * most;
  }

  lemma {:induction false} OneCycle(rates: seq<real>, most: real, low: nat, windowNs: nat, at: nat)
    requires rates != [] && Within(rates, most) && low < |rates|
    ensures Windows(rates, windowNs, at + |rates|) + Earned(most - rates[low], windowNs)
         <= Windows(rates, windowNs, at) + Earned(most, |rates| * windowNs)
  {
    hide Earned, RateOf;
    var n := |rates|;
    var k := ComesUp(n, low, at);
    var a, b := k - at, at + n - k - 1;
    AtMostFastest(rates, most, windowNs, at, a);
    AtMostFastest(rates, most, windowNs, k + 1, b);
    EarnedDifference(rates[low], most, windowNs);
    hide Windows;
    assert Windows(rates, windowNs, k + 1) == Windows(rates, windowNs, k) + Earned(rates[low], windowNs) by {
      NextWindow(rates, windowNs, k);
      LowRate(rates, k, low);
    }
    EarnedAdds(most, a * windowNs, windowNs);
    EarnedAdds(most, a * windowNs + windowNs, b * windowNs);
    ThreeParts(a, b, windowNs);
    assert at + a == k && k + 1 + b == at + n;
  }

  lemma {:induction false} LowRate(rates: seq<real>, k: nat, low: nat)
    requires low < |rates| && k % |rates| == low
    ensures RateOf(rates, k) == rates[low]
  {
  }

  lemma {:induction false} ThreeParts(a: nat, b: nat, c: nat)
    ensures (a + 1 + b) * c == a * c + c + b * c
  {
  }

  lemma {:induction false} NextWindow(rates: seq<real>, windowNs: nat, k: nat)
    requires rates != []
    ensures Windows(rates, windowNs, k + 1) == Windows(rates, windowNs, k) + Earned(RateOf(rates, k), windowNs)
  {
  }

  // ---------- a run that outruns its schedule ----------

  /**
   The first windows pass unused; in window w a message goes out at once, and the next one is
   asked for in the open window but gets its refill only after some more cycles.
   */
  function LateVisits(w: nat, windowNs: nat, late: nat): seq<Visit> {
    seq(w, k requires 0 <= k => Visit(k * windowNs, [])) + [Visit(w * windowNs, [w * windowNs, late])]
  }

  lemma {:induction false} LateConforms(rates: seq<real>, windowNs: nat, w: nat, late: nat)
    requires rates != [] && windowNs > 0 && RateOf(rates, w) >= RATE_EPSILON && w * windowNs <= late
    ensures Conforms(rates, windowNs, 0, LateVisits(w, windowNs, late))
  {
    var visits := LateVisits(w, windowNs, late);
    forall k | 0 <= k < |visits|
      ensures VisitOk(visits[k], RateOf(rates, k), WindowStart(0, k, windowNs), WindowStart(0, k + 1, windowNs))
      ensures k > 0 ==> visits[k - 1].End() <= visits[k].begin
    {
      assert (k + 1) * windowNs == k * windowNs + windowNs;
      assert k > 0 ==> (k - 1) * windowNs + windowNs == k * windowNs;
    }
  }

  lemma {:induction false} UnusedVisits(size: nat, burst: real, rates: seq<real>, visits: seq<Visit>)
    requires rates != [] && forall k :: 0 <= k < |visits| ==> visits[k].takes == []
    ensures Replay(size, burst, rates, 0, visits) == Bucket(burst, 0, [])
    decreases |visits|
  {
    if visits != [] {
      UnusedVisits(size, burst, rates, visits[..|visits| - 1]);
    }
  }

  /** Both messages go out when the late refill earns one message. */
  lemma {:induction false} LateGrants(size: nat, rates: seq<real>, windowNs: nat, w: nat, late: nat)
    requires rates != [] && RateOf(rates, w) >= 0.0 && w * windowNs <= late
    requires size as real <= Earned(RateOf(rates, w), late - w * windowNs)
    ensures var b := Replay(size, size as real, rates, 0, LateVisits(w, windowNs, late));
            b.last == late && |b.grants| == 2
  {
    var visits, rate, burst, at := LateVisits(w, windowNs, late), RateOf(rates, w), size as real, w * windowNs;
    assert visits[..w] == seq(w, k requires 0 <= k => Visit(k * windowNs, []));
    UnusedVisits(size, burst, rates, visits[..w]);
    EarnedGrows(rate, rate, at);
    hide Earned;
    var full := Bucket(burst, 0, []);
    var times := visits[w].takes;
    assert times == [at, late] && times[..1] == [at] && times[..1][..0] == [];
    var one := Take(full, size, burst, rate, at);
    assert one == Bucket(0.0, at, [at]);
    assert Takes(full, size, burst, rate, []) == full;
    assert Takes(full, size, burst, rate, [at]) == one;
    assert Takes(full, size, burst, rate, times) == Take(one, size, burst, rate, late);
  }

  /** With enough cycles the fastest rate earns a whole message more than the schedule. */
  lemma {:induction false} EnoughCycles(gap: real, need: real) returns (cycles: nat)
    requires gap > 0.0
    ensures cycles as real * gap >= need
  {
    var q := need / gap;
    cycles := if q < 0.0 then 0 else q.Floor + 1;
    assert cycles as real >= q;
    assert (cycles as real - q) * gap >= 0.0;
    assert q * gap == need;
  }

  /** Some time after window w started its rate would have earned a whole byte more than the schedule in all. */
  lemma {:induction false} FarBehind(rates: seq<real>, most: real, windowNs: nat, w: nat, low: nat) returns (late: nat, span: nat)
    requires rates != [] && windowNs > 0 && Within(rates, most) && low < |rates| && rates[low] < most
    ensures w * windowNs + span == late
    ensures 0.0 <= Scheduled(rates, windowNs, late) <= Earned(most, span) - 1.0
  {
    hide Earned, Windows, Scheduled;
    EarnedPositive(most - rates[low], windowNs);
    var cycles := EnoughCycles(Earned(most - rates[low], windowNs), Windows(rates, windowNs, w) + 1.0);
    var end := BehindFastest(rates, most, low, windowNs, w, cycles);
    WindowsNonNegative(rates, most, windowNs, end);
    EndOfWindow(rates, windowNs, end);
    TwoParts(w, end - w, windowNs);
    late, span := end * windowNs, (end - w) * windowNs;
  }

  /** A late refill that earns a message larger than what the schedule earned until then breaks the bound. */
  lemma {:induction false} LateRunOutruns(rates: seq<real>, windowNs: nat, w: nat, late: nat, size: nat)
    requires rates != [] && windowNs > 0 && RateOf(rates, w) >= RATE_EPSILON && w * windowNs <= late
    requires Scheduled(rates, windowNs, late) < size as real <= Earned(RateOf(rates, w), late - w * windowNs)
    ensures !ScheduleBounds(rates, windowNs)
  {
    hide Earned, Conforms, Replay, LateVisits, Scheduled, RateOf;
    var visits := LateVisits(w, windowNs, late);
    LateConforms(rates, windowNs, w, late);
    LateGrants(size, rates, windowNs, w, late);
    assert (2 * size) as real == size as real + size as real;
    assert !FollowsSchedule(size, size as real, rates, windowNs, 0, visits);
  }

  /** A schedule that is neither constant nor idle is outrun by some run. */
  lemma {:induction false} BoundsFail(rates: seq<real>, most: real, windowNs: nat, w: nat, low: nat)
    requires rates != [] && windowNs > 0 && Within(rates, most) && w < |rates| && low < |rates|
    requires rates[w] == most >= RATE_EPSILON && rates[low] < most
    ensures !ScheduleBounds(rates, windowNs)
  {
    hide Earned, Windows, Scheduled, ScheduleBounds, RateOf;
    var late, span := FarBehind(rates, most, windowNs, w, low);
    assert late - w * windowNs == span;
    QuotientOf(|rates|, 0, w);
    LowRate(rates, w, w);
    LateRunOutruns(rates, windowNs, w, late, Earned(most, span).Floor);
  }

  lemma {:induction false} EarnedPositive(rate: real, ns: nat)
    requires rate > 0.0 && ns > 0
    ensures Earned(rate, ns) > 0.0
  {
    var s := ns as real / NS_PER_SEC;
    assert s > 0.0 && s * rate > 0.0;
  }

  lemma {:induction false} EndOfWindow(rates: seq<real>, windowNs: nat, n: nat)
    requires rates != [] && windowNs > 0
    ensures Scheduled(rates, windowNs, n * windowNs) == Windows(rates, windowNs, n)
  {
    QuotientOf(windowNs, n, 0);
    EarnedAdds(RateOf(rates, n), 0, 0);
  }

  lemma {:induction false} FastestWindow(rates: seq<real>) returns (w: nat)
    requires rates != []
    ensures w < |rates| && forall k :: 0 <= k < |rates| ==> rates[k] <= rates[w]
  {
    if |rates| == 1 {
      w := 0;
    } else {
      var n := |rates| - 1;
      w := FastestWindow(rates[..n]);
      assert forall k :: 0 <= k < n ==> rates[..n][k] == rates[k];
      w := if rates[n] > rates[w] then n else w;
    }
  }

  /**
   When the schedule's own rate bounds the bytes of a run: for every message size, burst and
   environment exactly when all windows have the same rate or all are idle. Otherwise a
   refill that comes late, or the first one after a slower window, charges time at a rate
   the schedule did not have then.
   */
  lemma {:induction false} ScheduleBoundsExactly(rates: seq<real>, windowNs: nat)
    requires rates != [] && windowNs > 0 && forall k :: 0 <= k < |rates| ==> rates[k] >= 0.0
    ensures ScheduleBounds(rates, windowNs) <==> Constant(rates) || AllIdle(rates)
  {
    hide ScheduleBounds;
    var w := FastestWindow(rates);
    if Constant(rates) || AllIdle(rates) {
      BoundsHold(rates, rates[w], windowNs);
    } else {
      var k :| 0 <= k < |rates| && rates[k] != rates[0];
      var low := if rates[k] < rates[w] then k else 0;
      BoundsFail(rates, rates[w], windowNs, w, low);
    }
  }

  /**
   A concrete case: one-second windows at one byte per second and idle in turn, messages and
   burst of two bytes. Four bytes go out in two seconds; burst and schedule allow three.
   */
  lemma {:induction false} LateRefillOutrunsSchedule()
    ensures var rates, second := [1.0, 0.0], 1000000000;
            var visits := [Visit(0, [0, 2 * second])];
            && Conforms(rates, second, 0, visits)
            && |Replay(2, 2.0, rates, 0, visits).grants| == 2
            && Scheduled(rates, second, 2 * second) == 1.0
            && !FollowsSchedule(2, 2.0, rates, second, 0, visits)
  {
    var rates, second := [1.0, 0.0], 1000000000;
    assert LateVisits(0, second, 2 * second) == [Visit(0, [0, 2 * second])];
    LateConforms(rates, second, 0, 2 * second);
    LateGrants(2, rates, second, 0, 2 * second);
    EndOfWindow(rates, second, 2);
    NextWindow(rates, second, 0);
    NextWindow(rates, second, 1);
  }
}

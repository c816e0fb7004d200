/**
 The rate-shaped sender and the client that starts several of them on one trace. The clock,
 the network and the interrupt flag are the environment: each reading and each progress call
 may advance time, complete sends and raise the flag in any way. A run is observed for a
 finite number of environment steps, at the end of which it counts as interrupted, so the
 results hold at the end of every finite prefix. The sender's fields are tied to the replay
 of its visits to the windows, and what is proved about replays holds of its bytes.
 */
module PacedSender {
  import opened TokenBucket

  const SPIN_THRESHOLD_NS: nat := 100000

  /** The last visit asks the bucket once more. */
  function AskAgain(visits: seq<Visit>, at: nat): seq<Visit>
    requires visits != []
  {
    var w := |visits| - 1;
    visits[w := Visit(visits[w].begin, visits[w].takes + [at])]
  }

  /** Only the last visit may have changed. */
  ghost predicate SameButLast(visits: seq<Visit>, before: seq<Visit>) {
    before != [] && |visits| == |before| && visits[..|before| - 1] == before[..|before| - 1]
  }

  lemma {:induction false} VisitAgain(v: Visit, rate: real, windowStart: nat, windowEnd: nat, at: nat)
    requires VisitOk(v, rate, windowStart, windowEnd) && rate >= RATE_EPSILON && v.End() <= at && v.End() < windowEnd
    ensures VisitOk(Visit(v.begin, v.takes + [at]), rate, windowStart, windowEnd)
  {
    var v' := Visit(v.begin, v.takes + [at]);
    forall i | 0 <= i < |v'.takes| ensures v'.Before(i) <= v'.takes[i] && v'.Before(i) < windowEnd {
      assert if i < |v.takes| then v'.Before(i) == v.Before(i) else v'.Before(i) == v.End();
    }
  }

  lemma {:induction false} ReplayAgain(size: nat, burst: real, rates: seq<real>, startTime: nat, visits: seq<Visit>, at: nat)
    requires rates != [] && visits != []
    ensures Replay(size, burst, rates, startTime, AskAgain(visits, at))
         == Take(Replay(size, burst, rates, startTime, visits), size, burst, RateOf(rates, |visits| - 1), at)
  {
    hide Take;
    var w, more := |visits| - 1, AskAgain(visits, at);
    assert more[..w] == visits[..w];
    assert more[w].takes[..|visits[w].takes|] == visits[w].takes;
  }

  lemma {:induction false} AskedAgain(size: nat, burst: real, rates: seq<real>, windowNs: nat, startTime: nat, visits: seq<Visit>, at: nat)
    requires rates != [] && visits != [] && Conforms(rates, windowNs, startTime, visits)
    requires visits[|visits| - 1].End() <= at && visits[|visits| - 1].End() < WindowStart(startTime, |visits|, windowNs)
    requires RateOf(rates, |visits| - 1) >= RATE_EPSILON
    ensures Conforms(rates, windowNs, startTime, AskAgain(visits, at))
    ensures AskAgain(visits, at)[|visits| - 1].End() == at
    ensures Replay(size, burst, rates, startTime, AskAgain(visits, at))
         == Take(Replay(size, burst, rates, startTime, visits), size, burst, RateOf(rates, |visits| - 1), at)
  {
    hide Take, Replay, VisitOk, WindowStart, RateOf;
    ReplayAgain(size, burst, rates, startTime, visits, at);
    var w, more := |visits| - 1, AskAgain(visits, at);
    VisitAgain(visits[w], RateOf(rates, w), WindowStart(startTime, w, windowNs), WindowStart(startTime, w + 1, windowNs), at);
    assert w > 0 ==> visits[w - 1].End() <= visits[w].begin;
    forall k | 0 <= k < |more|
      ensures VisitOk(more[k], RateOf(rates, k), WindowStart(startTime, k, windowNs), WindowStart(startTime, k + 1, windowNs))
      ensures k > 0 ==> more[k - 1].End() <= more[k].begin
    {
      if k < w {
        assert VisitOk(visits[k], RateOf(rates, k), WindowStart(startTime, k, windowNs), WindowStart(startTime, k + 1, windowNs));
      }
    }
  }

  lemma {:induction false} NewVisit(size: nat, burst: real, rates: seq<real>, windowNs: nat, startTime: nat, visits: seq<Visit>, begin: nat)
    requires rates != [] && Conforms(rates, windowNs, startTime, visits) && WindowStart(startTime, |visits|, windowNs) <= begin
    requires visits != [] ==> visits[|visits| - 1].End() <= begin
    ensures Conforms(rates, windowNs, startTime, visits + [Visit(begin, [])])
    ensures Replay(size, burst, rates, startTime, visits + [Visit(begin, [])]) == Replay(size, burst, rates, startTime, visits)
  {
    var more := visits + [Visit(begin, [])];
    assert more[..|visits|] == visits;
    forall k | 0 <= k < |more|
      ensures VisitOk(more[k], RateOf(rates, k), WindowStart(startTime, k, windowNs), WindowStart(startTime, k + 1, windowNs))
      ensures k > 0 ==> more[k - 1].End() <= more[k].begin
    {
      if k < |visits| {
        assert VisitOk(visits[k], RateOf(rates, k), WindowStart(startTime, k, windowNs), WindowStart(startTime, k + 1, windowNs));
      }
    }
  }

  class Sender {
    const msgSize: nat
    const burstLimit: real
    const maxOutstanding: nat
    const rates: seq<real>
    const windowNs: nat
    // the bucket
    var tokens: real
    var rateBps: real
    var lastNs: nat
    // sends
    var startTime: nat
    var outstanding: nat
    var totalBytes: nat
    var totalMsgs: nat
    // the environment: the clock, the interrupt flag and how much longer the run is observed
    var clock: nat
    var stop: bool
    var life: nat
    // the windows visited so far
    ghost var visits: seq<Visit>

    /** The bucket after all visits. */
    ghost function Log(): Bucket
      reads this
      requires rates != []
    {
      Replay(msgSize, burstLimit, rates, startTime, visits)
    }

    ghost predicate Paced()
      reads this
      requires rates != []
    {
      && Conforms(rates, windowNs, startTime, visits)
      && tokens == Log().tokens && lastNs <= Log().last && (lastNs == Log().last || tokens == burstLimit)
      && (visits != [] ==> rateBps == RateOf(rates, |visits| - 1) && visits[|visits| - 1].End() <= clock)
    }

    ghost predicate Valid()
      reads this
    {
      && rates != [] && (forall k :: 0 <= k < |rates| ==> rates[k] >= 0.0) && burstLimit >= 0.0
      && Paced()
      && startTime <= clock && lastNs <= clock
      && outstanding <= maxOutstanding
      && totalBytes == totalMsgs * msgSize && totalMsgs <= |Log().grants|
    }

    /** The environment has only moved on. */
    ghost predicate Onward(clock0: nat, outstanding0: nat, stop0: bool, life0: nat)
      reads this
    {
      clock >= clock0 && outstanding <= outstanding0 && (stop0 ==> stop) && life <= life0
    }

    /** tb_init: a full bucket. */
    constructor (rates: seq<real>, windowNs: nat, msgSize: nat, burstLimit: real, maxOutstanding: nat, now: nat, life: nat)
      requires rates != [] && (forall k :: 0 <= k < |rates| ==> rates[k] >= 0.0) && 0.0 <= burstLimit
      ensures Valid() && visits == [] && outstanding == totalBytes == totalMsgs == 0
      ensures this.rates == rates && this.windowNs == windowNs && this.msgSize == msgSize
      ensures this.burstLimit == burstLimit && this.maxOutstanding == maxOutstanding
      ensures startTime == now == clock && tokens == burstLimit && this.life == life
    {
      this.rates, this.windowNs := rates, windowNs;
      this.msgSize, this.burstLimit, this.maxOutstanding := msgSize, burstLimit, maxOutstanding;
      tokens, rateBps, lastNs, startTime := burstLimit, rates[0], now, now;
      outstanding, totalBytes, totalMsgs := 0, 0, 0;
      clock, stop, this.life := now, false, life;
      visits := [];
    }

    /** Reads the clock: any time may have passed, and the flag may have been raised. */
    method Now() returns (t: nat)
      requires Valid()
      modifies `clock, `stop, `life
      ensures Valid() && t == clock >= old(clock) && (old(stop) ==> stop)
      ensures life < old(life) || (life == old(life) == 0 && stop)
    {
      hide Conforms, Replay;
      var passed: nat, raised: bool := *, *;
      clock := clock + passed;
      stop := stop || raised || life == 0;
      life := if life == 0 then 0 else life - 1;
      t := clock;
    }

    /** Lets the network move: any number of pending sends complete, each with one callback. */
    method Progress()
      requires Valid()
      modifies `clock, `stop, `life, `outstanding
      ensures Valid() && Onward(old(clock), old(outstanding), old(stop), old(life))
      ensures life < old(life) || (life == old(life) == 0 && stop)
    {
      hide Conforms, Replay;
      var completed: nat := *;
      while completed > 0 && outstanding > 0
        invariant Valid() && outstanding <= old(outstanding) && clock == old(clock) && life == old(life) && stop == old(stop)
      {
        outstanding, completed := outstanding - 1, completed - 1;
      }
      var _ := Now();
    }

    /** Sleeps and spins until the target time, or until the run is no longer observed. */
    method WaitUntil(target: nat)
      requires Valid()
      modifies `clock, `stop, `life, `outstanding
      ensures Valid() && Onward(old(clock), old(outstanding), old(stop), old(life))
      ensures target <= clock || stop
    {
      hide Conforms, Replay;
      var t := Now();
      while t < target && life > 0
        invariant Valid() && Onward(old(clock), old(outstanding), old(stop), old(life))
        invariant t == clock || stop
        decreases life
      {
        Progress();
        t := Now();
      }
      if t < target {
        t := Now();
      }
    }

    /** tb_refill: the current rate is applied to all the time since the last refill. */
    method Refill(now: nat)
      requires lastNs <= now
      modifies `tokens, `lastNs
      ensures lastNs == now && tokens == Capped(old(tokens) + Earned(rateBps, now - old(lastNs)), burstLimit)
    {
      hide Earned;
      tokens := tokens + Earned(rateBps, now - lastNs);
      if tokens > burstLimit {
        tokens := burstLimit;
      }
      lastNs := now;
    }

    /** One turn of tb_consume: refill, and take a message's tokens if there are enough. */
    method TryTake() returns (granted: bool)
      requires Valid() && visits != [] && rateBps >= RATE_EPSILON
      requires visits[|visits| - 1].End() < WindowStart(startTime, |visits|, windowNs)
      modifies `clock, `stop, `life, `tokens, `lastNs, `visits
      ensures Valid() && visits == AskAgain(old(visits), clock) && Onward(old(clock), old(outstanding), old(stop), old(life))
      ensures life < old(life) || (life == old(life) == 0 && stop)
      ensures lastNs == clock && (!granted ==> tokens < msgSize as real)
      ensures Log().grants == if granted then old(Log().grants) + [clock] else old(Log().grants)
    {
      hide Earned, Conforms, Replay;
      var now := Now();
      AskedAgain(msgSize, burstLimit, rates, windowNs, startTime, visits, now);
      FullStaysFull(tokens, burstLimit, rateBps, now - lastNs);
      if Log().last <= now {
        FullStaysFull(tokens, burstLimit, rateBps, now - Log().last);
      }
      EarliestRefill(msgSize, burstLimit, rates, windowNs, startTime, visits);
      Refill(now);
      granted := tokens >= msgSize as real;
      if granted {
        tokens := tokens - msgSize as real;
      }
      visits := AskAgain(visits, now);
    }

    /** tb_consume: waits for a message's worth of tokens; false when interrupted or past the deadline. */
    method Consume(deadline: nat) returns (ok: bool)
      requires Valid() && visits != [] && rateBps >= RATE_EPSILON && deadline == WindowStart(startTime, |visits|, windowNs)
      requires visits[|visits| - 1].End() < deadline
      modifies `clock, `stop, `life, `tokens, `lastNs, `outstanding, `visits
      ensures Valid() && SameButLast(visits, old(visits)) && Onward(old(clock), old(outstanding), old(stop), old(life))
      ensures |Log().grants| == |old(Log().grants)| + if ok then 1 else 0
      ensures !ok ==> stop || deadline <= clock
      ensures ok ==> life < old(life) || stop
    {
      hide Earned, Conforms, Replay;
      while true
        invariant Valid() && SameButLast(visits, old(visits)) && Onward(old(clock), old(outstanding), old(stop), old(life))
        invariant visits[|visits| - 1].End() < deadline
        invariant |Log().grants| == |old(Log().grants)|
        decreases life, if stop then 0 else 1
      {
        if stop {
          return false;
        }
        var granted := TryTake();
        if granted {
          return true;
        }
        var now := Now();
        if now >= deadline {
          return false;
        }
        var wait := Deficit(msgSize as real - tokens, rateBps, deadline - now);
        if wait > SPIN_THRESHOLD_NS {
          now := Now();
        }
        now := Now();
        WaitUntil(now + if wait < SPIN_THRESHOLD_NS then wait else SPIN_THRESHOLD_NS);
      }
    }

    /** post_send: one granted message goes out, completes at once or stays pending, or fails. */
    method PostSend() returns (ok: bool)
      requires Valid() && outstanding < maxOutstanding && totalMsgs < |Log().grants|
      modifies `outstanding, `totalBytes, `totalMsgs
      ensures Valid() && outstanding <= old(outstanding) + 1
      ensures if ok then totalMsgs == old(totalMsgs) + 1 && totalBytes == old(totalBytes) + msgSize
              else totalMsgs == old(totalMsgs) && totalBytes == old(totalBytes) && outstanding == old(outstanding)
    {
      hide Conforms, Replay;
      var pending: bool := *;
      ok := *;
      if !ok {
        return;
      }
      if pending {
        outstanding := outstanding + 1;
      }
      assert (totalMsgs + 1) * msgSize == totalMsgs * msgSize + msgSize;
      totalBytes, totalMsgs := totalBytes + msgSize, totalMsgs + 1;
    }

    /** Waits until fewer sends than allowed are in flight. */
    method DrainPipeline()
      requires Valid()
      modifies `clock, `stop, `life, `outstanding
      ensures Valid() && Onward(old(clock), old(outstanding), old(stop), old(life))
      ensures stop || outstanding < maxOutstanding
    {
      hide Conforms, Replay;
      while outstanding >= maxOutstanding && !stop
        invariant Valid() && Onward(old(clock), old(outstanding), old(stop), old(life))
        decreases life, if stop then 0 else 1
      {
        Progress();
      }
    }

    /** One message of an open window: false when the window is over or the run is interrupted. */
    method SendOne(windowEnd: nat, errors: nat) returns (more: bool, newErrors: nat)
      requires Valid() && visits != [] && rateBps >= RATE_EPSILON && windowEnd == WindowStart(startTime, |visits|, windowNs)
      requires visits[|visits| - 1].End() < windowEnd
      modifies `clock, `stop, `life, `tokens, `lastNs, `outstanding, `visits, `totalBytes, `totalMsgs
      ensures Valid() && SameButLast(visits, old(visits)) && clock >= old(clock) && (old(stop) ==> stop) && life <= old(life)
      ensures if more then life < old(life) || stop else stop || windowEnd <= clock
    {
      hide Conforms, Replay;
      newErrors := errors;
      DrainPipeline();
      if stop {
        return false, newErrors;
      }
      var ok := Consume(windowEnd);
      if !ok {
        return false, newErrors;
      }
      ok := PostSend();
      if !ok {
        newErrors := newErrors + 1;
        if newErrors > 100 {
          stop := true;
          return false, newErrors;
        }
      }
      Progress();
      more := true;
    }

    /** The sends of one window. */
    method SendWindow(windowEnd: nat, errors: nat) returns (newErrors: nat)
      requires Valid() && visits != [] && rateBps >= RATE_EPSILON && windowEnd == WindowStart(startTime, |visits|, windowNs)
      modifies `clock, `stop, `life, `tokens, `lastNs, `outstanding, `visits, `totalBytes, `totalMsgs
      ensures Valid() && SameButLast(visits, old(visits)) && clock >= old(clock) && (old(stop) ==> stop) && life <= old(life)
      ensures stop || windowEnd <= clock
    {
      hide Conforms, Replay;
      newErrors := errors;
      var now := Now();
      var more := true;
      while more && now < windowEnd && !stop
        invariant Valid() && SameButLast(visits, old(visits)) && clock >= old(clock) && (old(stop) ==> stop) && life <= old(life)
        invariant visits[|visits| - 1].End() <= now <= clock
        invariant !more ==> stop || windowEnd <= clock
        decreases life, if stop then 0 else 1
      {
        more, newErrors := SendOne(windowEnd, newErrors);
        now := Now();
      }
    }

    /**
     One window: its rate is set, the tokens are not touched, and the window's own grants fit
     into one burst and what its own rate earns. An idle window only waits.
     */
    method RunWindow(w: nat, errors: nat) returns (newErrors: nat)
      requires Valid() && w == |visits|
      modifies `clock, `stop, `life, `tokens, `lastNs, `outstanding, `visits, `totalBytes, `totalMsgs, `rateBps
      ensures Valid() && w <= |visits| <= w + 1
      ensures !stop ==> |visits| == w + 1 && WindowStart(startTime, w + 1, windowNs) <= clock
      ensures visits[..w] == old(visits)
      ensures |visits| == w ==> Log() == old(Log())
      ensures |visits| == w + 1 ==>
                && rateBps == RateOf(rates, w)
                && (rateBps < RATE_EPSILON ==> tokens == old(tokens) && Log() == old(Log()))
                && Log().grants == old(Log().grants) + GrantsOf(msgSize, burstLimit, rates, startTime, visits, w)
                && IntervalBound(GrantsOf(msgSize, burstLimit, rates, startTime, visits, w), msgSize, burstLimit, rateBps)
    {
      hide Conforms, Replay, IntervalBound, GrantsOf;
      var windowStart := WindowStart(startTime, w, windowNs);
      var windowEnd := WindowStart(startTime, w + 1, windowNs);
      newErrors := errors;
      WaitUntil(windowStart);
      if clock < windowStart {
        assert visits[..w] == visits;
        return;
      }
      OpenWindow(w);
      if rateBps < RATE_EPSILON {
        WaitUntil(windowEnd);
      } else {
        newErrors := SendWindow(windowEnd, errors);
      }
      assert visits[..w] == old(visits);
      LastWindow(this);
    }

    /** The window's rate is set; the tokens stay as they are. */
    method OpenWindow(w: nat)
      requires Valid() && w == |visits| && WindowStart(startTime, w, windowNs) <= clock
      modifies `rateBps, `visits
      ensures Valid() && visits == old(visits) + [Visit(clock, [])] && rateBps == RateOf(rates, w) && Log() == old(Log())
    {
      hide Conforms, Replay;
      NewVisit(msgSize, burstLimit, rates, windowNs, startTime, visits, clock);
      rateBps := rates[w % |rates|];
      visits := visits + [Visit(clock, [])];
    }

    /**
     The whole schedule, wrapping around when it is shorter than the run: the bytes sent, and
     every interval of grants, fit into one burst and what the fastest rate earns, and each
     window's grants into one burst and what its own rate earns.
     */
    method RunRateLoop(totalWindows: nat)
      requires Valid() && visits == []
      modifies this
      ensures Valid() && |visits| <= totalWindows
      ensures forall most :: Within(rates, most) ==>
                && totalBytes as real <= burstLimit + Earned(most, clock - startTime)
                && IntervalBound(Log().grants, msgSize, burstLimit, most)
      ensures forall w :: 0 <= w < |visits| ==>
                IntervalBound(GrantsOf(msgSize, burstLimit, rates, startTime, visits, w), msgSize, burstLimit, RateOf(rates, w))
      ensures startTime >= old(startTime)
    {
      hide Conforms, Replay, IntervalBound, GrantsOf, Earned;
      var t := Now();
      StartsLater(msgSize, burstLimit, rates, windowNs, startTime, t);
      startTime := t;
      var w, errors := 0, 0;
      while w < totalWindows && !stop
        invariant Valid() && |visits| <= w <= totalWindows && startTime == t && (!stop ==> |visits| == w)
      {
        errors := RunWindow(w, errors);
        w := w + 1;
      }
      BytesAreBounded(this);
    }
  }

  /** The grants of the last window, by that window's own rate. */
  lemma {:induction false} LastWindow(s: Sender)
    requires s.Valid() && s.visits != []
    ensures var w := |s.visits| - 1;
            var own := GrantsOf(s.msgSize, s.burstLimit, s.rates, s.startTime, s.visits, w);
            && s.Log().grants == Replay(s.msgSize, s.burstLimit, s.rates, s.startTime, s.visits[..w]).grants + own
            && IntervalBound(own, s.msgSize, s.burstLimit, RateOf(s.rates, w))
  {
    hide Conforms, Replay, IntervalBound, GrantsOf;
    var w := |s.visits| - 1;
    WindowBound(s.msgSize, s.burstLimit, s.rates, Fastest(s.rates), s.windowNs, s.startTime, s.visits, w);
    assert s.visits[..w + 1] == s.visits;
  }

  /** What is proved of replays, for a sender. */
  lemma {:induction false} BytesAreBounded(s: Sender)
    requires s.Valid()
    ensures forall most :: Within(s.rates, most) ==>
              && s.totalBytes as real <= s.burstLimit + Earned(most, s.clock - s.startTime)
              && IntervalBound(s.Log().grants, s.msgSize, s.burstLimit, most)
    ensures forall w :: 0 <= w < |s.visits| ==>
              IntervalBound(GrantsOf(s.msgSize, s.burstLimit, s.rates, s.startTime, s.visits, w), s.msgSize, s.burstLimit, RateOf(s.rates, w))
  {
    hide Conforms, Replay, IntervalBound, GrantsOf, Earned;
    forall most | Within(s.rates, most)
      ensures s.totalBytes as real <= s.burstLimit + Earned(most, s.clock - s.startTime)
      ensures IntervalBound(s.Log().grants, s.msgSize, s.burstLimit, most)
    {
      BytesWithin(s, most);
    }
    forall w | 0 <= w < |s.visits|
      ensures IntervalBound(GrantsOf(s.msgSize, s.burstLimit, s.rates, s.startTime, s.visits, w), s.msgSize, s.burstLimit, RateOf(s.rates, w))
    {
      WindowBound(s.msgSize, s.burstLimit, s.rates, Fastest(s.rates), s.windowNs, s.startTime, s.visits, w);
    }
  }

  lemma {:induction false} BytesWithin(s: Sender, most: real)
    requires s.Valid() && Within(s.rates, most)
    ensures s.totalBytes as real <= s.burstLimit + Earned(most, s.clock - s.startTime)
    ensures IntervalBound(s.Log().grants, s.msgSize, s.burstLimit, most)
  {
    hide Conforms, Replay, IntervalBound, Earned, Covered;
    RunsAreSane(s.msgSize, s.burstLimit, s.rates, most, s.windowNs, s.startTime, s.visits);
    var b := s.Log();
    assert s.rates[0] <= most;
    SentIsAfforded(s.totalMsgs, b.grants, s.msgSize, s.burstLimit, most, b.tokens, s.startTime, b.last, s.clock);
  }

  lemma {:induction false} SentIsAfforded(sent: nat, log: seq<nat>, size: nat, burst: real, most: real, tokens: real, start: nat, last: nat, now: nat)
    requires Afforded(log, size, burst, most, tokens, start, last)
    requires sent <= |log| && 0.0 <= tokens && 0.0 <= most && last <= now
    ensures (sent * size) as real <= burst + Earned(most, now - start)
  {
    EarnedAdds(most, last - start, now - last);
    EarnedGrows(most, most, now - last);
    assert last - start + (now - last) == now - start;
    assert |log| * size == sent * size + (|log| - sent) * size;
  }

  function Fastest(rates: seq<real>): (r: real)
    requires rates != []
    ensures forall k :: 0 <= k < |rates| ==> rates[k] <= r
  {
    if |rates| == 1 then rates[0]
    else
      var rest := Fastest(rates[1..]);
      assert forall k :: 1 <= k < |rates| ==> rates[k] == rates[1..][k - 1];
      if rates[0] > rest then rates[0] else rest
  }

  lemma {:induction false} FullStaysFull(tokens: real, burst: real, rate: real, ns: nat)
    requires rate >= 0.0
    ensures tokens == burst ==> Capped(tokens + Earned(rate, ns), burst) == burst
  {
    EarnedGrows(rate, rate, ns);
  }

  lemma {:induction false} EarliestRefill(size: nat, burst: real, rates: seq<real>, windowNs: nat, startTime: nat, visits: seq<Visit>)
    requires rates != [] && visits != [] && burst >= 0.0 && Conforms(rates, windowNs, startTime, visits)
    requires forall k :: 0 <= k < |rates| ==> rates[k] >= 0.0
    ensures Replay(size, burst, rates, startTime, visits).last <= visits[|visits| - 1].End()
  {
    hide Replay, Conforms;
    RunsAreSane(size, burst, rates, Fastest(rates), windowNs, startTime, visits);
  }

  lemma {:induction false} StartsLater(size: nat, burst: real, rates: seq<real>, windowNs: nat, before: nat, after: nat)
    requires rates != []
    ensures Conforms(rates, windowNs, after, [])
    ensures Replay(size, burst, rates, after, []) == Bucket(burst, after, []) && Replay(size, burst, rates, before, []) == Bucket(burst, before, [])
  {
  }

  /** How long earning the missing tokens takes, cut off at the deadline. */
  function Deficit(missing: real, rate: real, remain: nat): nat
    requires missing > 0.0 && rate > 0.0
  {
    var wait := (missing / rate * NS_PER_SEC).Floor;
    if wait > remain then remain else if wait < 0 then 0 else wait
  }

  /** The wait is the whole nanoseconds it takes to earn what is missing, unless less time remains. */
  lemma {:induction false} DeficitEarns(missing: real, rate: real, remain: nat)
    requires missing > 0.0 && rate > 0.0
    ensures var wait := Deficit(missing, rate, remain);
            && wait <= remain && Earned(rate, wait) <= missing
            && (wait < remain ==> missing < Earned(rate, wait + 1))
  {
    var exact := missing / rate * NS_PER_SEC;
    assert missing / rate > 0.0 by { assert missing / rate * rate == missing; }
    var wait := Deficit(missing, rate, remain);
    assert wait as real <= exact && (wait < remain ==> exact < (wait + 1) as real);
    EarnedBy(missing, rate, wait);
    EarnedBy(missing, rate, wait + 1);
  }

  /** So many nanoseconds earn the tokens exactly if they are no fewer than the exact time. */
  lemma {:induction false} EarnedBy(missing: real, rate: real, ns: nat)
    requires rate > 0.0
    ensures ns as real <= missing / rate * NS_PER_SEC <==> Earned(rate, ns) <= missing
  {
    var time := ns as real / NS_PER_SEC;
    assert missing / rate * rate == missing;
    assert (missing / rate - time) * rate == missing - Earned(rate, ns);
  }

  // ---------- from a trace to the streams ----------

  function Sum(xs: seq<real>): real {
    if xs == [] then 0.0 else Sum(xs[..|xs| - 1]) + xs[|xs| - 1]
  }

  lemma {:induction false} SumBetween(xs: seq<real>, low: real, high: real)
    requires forall i :: 0 <= i < |xs| ==> low <= xs[i] <= high
    ensures |xs| as real * low <= Sum(xs) <= |xs| as real * high
  {
    if xs != [] {
      var n := |xs| - 1;
      SumBetween(xs[..n], low, high);
      assert |xs| as real * low == n as real * low + low && |xs| as real * high == n as real * high + high;
    }
  }

  ghost predicate IsMax(m: real, xs: seq<real>) {
    m in xs && forall i :: 0 <= i < |xs| ==> xs[i] <= m
  }

  method Max(xs: seq<real>) returns (m: real)
    requires xs != []
    ensures IsMax(m, xs)
  {
    m := xs[0];
    for i := 1 to |xs|
      invariant m in xs && forall k :: 0 <= k < i ==> xs[k] <= m
    {
      if xs[i] > m {
        m := xs[i];
      }
    }
  }

  /** The complement of a window's mean bandwidth, scaled so that the trace's maximum means no interference. */
  function WindowRate(chunk: seq<real>, most: real, capacity: real): real
    requires chunk != [] && most > 0.0
  {
    (1.0 - Sum(chunk) / |chunk| as real / most) * capacity
  }

  /** What the trace's workload used of the link in a window and what is left for interference make up the capacity. */
  ghost predicate Complements(rate: real, chunk: seq<real>, most: real, capacity: real) {
    rate * (|chunk| as real * most) + Sum(chunk) * capacity == capacity * (|chunk| as real * most)
  }

  /** The rate is the complement of the window's bandwidth, within the capacity, and zero for a window at the maximum throughout. */
  lemma {:induction false} RateWithinCapacity(chunk: seq<real>, most: real, capacity: real)
    requires chunk != [] && most > 0.0 && capacity >= 0.0
    requires forall i :: 0 <= i < |chunk| ==> 0.0 <= chunk[i] <= most
    ensures 0.0 <= WindowRate(chunk, most, capacity) <= capacity
    ensures Complements(WindowRate(chunk, most, capacity), chunk, most, capacity)
    ensures (forall i :: 0 <= i < |chunk| ==> chunk[i] == most) ==> WindowRate(chunk, most, capacity) == 0.0
  {
    hide Sum;
    SumBetween(chunk, 0.0, most);
    RateOfSum(Sum(chunk), |chunk| as real, most, capacity);
    if forall i :: 0 <= i < |chunk| ==> chunk[i] == most {
      SumBetween(chunk, most, most);
    }
  }

  lemma {:induction false} RateOfSum(sum: real, n: real, most: real, capacity: real)
    requires n > 0.0 && most > 0.0 && capacity >= 0.0 && 0.0 <= sum <= n * most
    ensures var rate := (1.0 - sum / n / most) * capacity;
            && 0.0 <= rate <= capacity && rate * (n * most) + sum * capacity == capacity * (n * most)
            && (sum == n * most ==> rate == 0.0)
  {
    var ratio := sum / n / most;
    Divided(sum, n, most);
    Divided(sum / n, most, 1.0);
    Complement(ratio, capacity);
    MeanTimesCount(sum, n, most);
    ComplementEquation(ratio, n * most, capacity);
    if sum == n * most {
      AtMaximum(ratio, n * most);
    }
  }

  lemma {:induction false} AtMaximum(ratio: real, x: real)
    requires x > 0.0 && ratio * x == x
    ensures ratio == 1.0
  {
    assert (ratio - 1.0) * x == 0.0;
  }

  lemma {:induction false} MeanTimesCount(sum: real, n: real, most: real)
    requires n > 0.0 && most > 0.0
    ensures sum / n / most * (n * most) == sum
  {
    var ratio := sum / n / most;
    assert ratio * most == sum / n;
    assert ratio * most * n == sum;
    assert ratio * (n * most) == ratio * most * n;
  }

  lemma {:induction false} ComplementEquation(ratio: real, x: real, capacity: real)
    ensures (1.0 - ratio) * capacity * x + ratio * x * capacity == capacity * x
  {
    assert (1.0 - ratio) * capacity == capacity - ratio * capacity;
    assert (capacity - ratio * capacity) * x == capacity * x - ratio * capacity * x;
    assert ratio * capacity * x == ratio * x * capacity;
  }

  lemma {:induction false} Complement(ratio: real, capacity: real)
    requires 0.0 <= ratio <= 1.0 && 0.0 <= capacity
    ensures 0.0 <= (1.0 - ratio) * capacity <= capacity
  {
    assert ratio * capacity >= 0.0;
    assert (1.0 - ratio) * capacity == capacity - ratio * capacity;
  }

  lemma {:induction false} Divided(x: real, y: real, k: real)
    requires y > 0.0 && 0.0 <= x <= y * k
    ensures 0.0 <= x / y <= k
  {
    assert x / y * y == x;
    assert (k - x / y) * y == y * k - x;
  }

  /** The samples of window k: `size` of them from sample k * size on, fewer at the end of the trace. */
  ghost function Window(xs: seq<real>, k: nat, size: nat): seq<real>
    requires k * size <= |xs|
  {
    if k * size + size <= |xs| then xs[k * size..k * size + size] else xs[k * size..]
  }

  /** Window k exists and has its rate. */
  ghost predicate WindowScaled(xs: seq<real>, k: nat, size: nat, most: real, capacity: real, rate: real) {
    && k * size < |xs| && size > 0 && most > 0.0
    && rate == WindowRate(Window(xs, k, size), most, capacity)
    && Complements(rate, Window(xs, k, size), most, capacity)
    && ((forall i :: k * size <= i < k * size + size && i < |xs| ==> xs[i] == most) ==> rate == 0.0)
  }

  ghost predicate Scaled(xs: seq<real>, size: nat, most: real, capacity: real, rates: seq<real>) {
    forall k: nat :: k < |rates| ==> WindowScaled(xs, k, size, most, capacity, rates[k])
  }

  lemma {:induction false} ScaleWindow(xs: seq<real>, k: nat, size: nat, most: real, capacity: real)
    requires size > 0 && k * size < |xs| && most > 0.0 && capacity >= 0.0
    requires forall i :: 0 <= i < |xs| ==> 0.0 <= xs[i] <= most
    ensures var rate := WindowRate(Window(xs, k, size), most, capacity);
            0.0 <= rate <= capacity && WindowScaled(xs, k, size, most, capacity, rate)
  {
    hide WindowRate, Complements;
    var chunk := Window(xs, k, size);
    RateWithinCapacity(chunk, most, capacity);
    var from := k * size;
    assert forall i :: 0 <= i < |chunk| ==> chunk[i] == xs[from + i];
  }

  lemma {:induction false} AfterWindow(k: nat, size: nat)
    ensures (k + 1) * size == k * size + size
  {
  }

  /** The mean of the samples, and their complement. */
  method RateOfChunk(chunk: seq<real>, most: real, capacity: real) returns (rate: real)
    requires chunk != [] && most > 0.0
    ensures rate == WindowRate(chunk, most, capacity)
  {
    var sum := 0.0;
    for i := 0 to |chunk|
      invariant sum == Sum(chunk[..i])
    {
      assert chunk[..i + 1][..i] == chunk[..i];
      sum := sum + chunk[i];
    }
    assert chunk[..|chunk|] == chunk;
    assert sum == Sum(chunk);
    var mean := sum / |chunk| as real;
    rate := (1.0 - mean / most) * capacity;
  }

  /**
   The windows follow one another through the whole trace, and each has the rate that
   complements its mean bandwidth, where the trace's maximum stands for the link's capacity.
   */
  method ScaleTrace(bandwidths: seq<real>, samplesPerWindow: nat, capacity: real) returns (rates: seq<real>)
    requires bandwidths != [] && forall i :: 0 <= i < |bandwidths| ==> bandwidths[i] > 0.0
    requires samplesPerWindow > 0 && capacity >= 0.0
    ensures Within(rates, capacity)
    ensures (|rates| - 1) * samplesPerWindow < |bandwidths| <= |rates| * samplesPerWindow
    ensures exists most :: IsMax(most, bandwidths) && Scaled(bandwidths, samplesPerWindow, most, capacity, rates)
  {
    hide WindowRate, WindowScaled;
    var most := Max(bandwidths);
    assert most > 0.0;
    var n, size := |bandwidths|, samplesPerWindow;
    rates := [];
    var w := 0;
    while w < n
      invariant w == |rates| * size && w - size < n
      invariant Within(rates, capacity)
      invariant Scaled(bandwidths, size, most, capacity, rates)
    {
      var chunk := bandwidths[w..if w + size <= n then w + size else n];
      var rate := RateOfChunk(chunk, most, capacity);
      assert chunk == Window(bandwidths, |rates|, size);
      ScaleWindow(bandwidths, |rates|, size, most, capacity);
      AfterWindow(|rates|, size);
      rates := rates + [rate];
      w := w + size;
    }
    AfterWindow(|rates| - 1, size);
  }

  /** A schedule within the capacity, split over n streams, is within an n-th of it. */
  lemma {:induction false} SplitWithinCapacity(rate: real, capacity: real, n: nat)
    requires 0.0 <= rate <= capacity && n > 0
    ensures 0.0 <= rate / n as real <= capacity / n as real && rate / n as real * n as real == rate
  {
    var m := n as real;
    assert capacity / m * m == capacity;
    Divided(rate, m, capacity / m);
  }

  /** The bytes of all streams. */
  function TotalBytes(senders: seq<Sender>): nat
    reads senders
  {
    if senders == [] then 0 else TotalBytes(senders[..|senders| - 1]) + senders[|senders| - 1].totalBytes
  }

  lemma {:induction false} TotalWithin(senders: seq<Sender>, each: real)
    requires forall i :: 0 <= i < |senders| ==> senders[i].totalBytes as real <= each
    ensures TotalBytes(senders) as real <= |senders| as real * each
  {
    if senders != [] {
      var n := |senders| - 1;
      TotalWithin(senders[..n], each);
      assert |senders| as real * each == n as real * each + each;
    }
  }

  /** A stream that ran between two times on rates within its share. */
  ghost predicate Stream(s: Sender, burst: real, share: real, first: nat, last: nat)
    reads s
  {
    s.Valid() && s.burstLimit == burst && first <= s.startTime && s.clock <= last && Within(s.rates, share)
  }

  lemma {:induction false} StreamWithin(s: Sender, burst: real, share: real, first: nat, last: nat)
    requires Stream(s, burst, share, first, last) && first <= last
    ensures s.totalBytes as real <= burst + Earned(share, last - first)
  {
    hide Earned, Conforms, Replay;
    BytesWithin(s, share);
    assert 0.0 <= s.rates[0] <= share;
    SentLonger(share, s.clock - s.startTime, last - first);
  }

  /**
   N senders that replay a schedule within an N-th of the link's capacity, all between the
   times `first` and `last`, send at most N bursts and what the capacity carries in between.
   */
  lemma {:induction false} StreamsWithinCapacity(senders: seq<Sender>, burst: real, capacity: real, first: nat, last: nat)
    requires senders != [] && first <= last
    requires forall i :: 0 <= i < |senders| ==> Stream(senders[i], burst, capacity / |senders| as real, first, last)
    ensures TotalBytes(senders) as real <= |senders| as real * burst + Earned(capacity, last - first)
  {
    hide Earned, Stream;
    var n := |senders| as real;
    var each := burst + Earned(capacity / n, last - first);
    forall i | 0 <= i < |senders| ensures senders[i].totalBytes as real <= each {
      StreamWithin(senders[i], burst, capacity / n, first, last);
    }
    TotalWithin(senders, each);
    Shares(capacity, |senders|, last - first);
    Distributed(n, burst, Earned(capacity / n, last - first));
  }

  lemma {:induction false} Distributed(n: real, x: real, y: real)
    ensures n * (x + y) == n * x + n * y
  {
  }

  lemma {:induction false} SentLonger(rate: real, a: nat, b: nat)
    requires rate >= 0.0 && a <= b
    ensures Earned(rate, a) <= Earned(rate, b)
  {
    EarnedAdds(rate, a, b - a);
    EarnedGrows(rate, rate, b - a);
  }

  lemma {:induction false} Shares(capacity: real, n: nat, ns: nat)
    requires n > 0
    ensures n as real * Earned(capacity / n as real, ns) == Earned(capacity, ns)
  {
    var m, s := n as real, ns as real / NS_PER_SEC;
    assert capacity / m * m == capacity;
    assert m * (s * (capacity / m)) == s * (capacity / m * m);
  }

  /** Each stream's share of the schedule. */
  method SplitRates(rates: seq<real>, capacity: real, n: nat) returns (shares: seq<real>)
    requires n > 0 && Within(rates, capacity)
    ensures |shares| == |rates| && Within(shares, capacity / n as real)
    ensures forall k :: 0 <= k < |rates| ==> shares[k] * n as real == rates[k]
  {
    shares := [];
    for k := 0 to |rates|
      invariant |shares| == k && Within(shares, capacity / n as real)
      invariant forall i :: 0 <= i < k ==> shares[i] * n as real == rates[i]
    {
      SplitWithinCapacity(rates[k], capacity, n);
      shares := shares + [rates[k] / n as real];
    }
  }

  /**
   The client in trace mode: scale the trace, split the schedule over n streams, and let each
   stream run. Whatever the clocks and the network do, all streams together send at most one
   burst each and what the link's capacity carries from the first start to the last end.
   */
  method RunClient(bandwidths: seq<real>, samplesPerWindow: nat, capacity: real, windowNs: nat, totalWindows: nat,
                   n: nat, msgSize: nat, burst: real, maxOutstanding: nat, starts: seq<nat>, life: nat)
    returns (senders: seq<Sender>, ghost first: nat, ghost last: nat)
    requires bandwidths != [] && forall i :: 0 <= i < |bandwidths| ==> bandwidths[i] > 0.0
    requires samplesPerWindow > 0 && capacity >= 0.0 && n > 0 && |starts| == n && burst >= 0.0
    ensures |senders| == n && first <= last
    ensures forall i :: 0 <= i < n ==> Stream(senders[i], burst, capacity / n as real, first, last)
    ensures TotalBytes(senders) as real <= n as real * burst + Earned(capacity, last - first)
  {
    hide Earned, Stream;
    var rates := ScaleTrace(bandwidths, samplesPerWindow, capacity);
    var shares := SplitRates(rates, capacity, n);
    senders := [];
    ghost var share := capacity / n as real;
    first, last := starts[0], starts[0];
    for i := 0 to n
      invariant |senders| == i && first <= last
      invariant forall k :: 0 <= k < i ==> Stream(senders[k], burst, share, first, last)
    {
      ghost var first', last' := first, last;
      var s := RunStream(shares, windowNs, totalWindows, msgSize, burst, maxOutstanding, starts[i], life);
      first := if starts[i] < first then starts[i] else first;
      last := if s.clock > last then s.clock else last;
      forall k | 0 <= k < i ensures Stream(senders[k], burst, share, first, last) {
        StreamLonger(senders[k], burst, share, first', last', first, last);
      }
      StreamLonger(s, burst, share, starts[i], s.clock, first, last);
      senders := senders + [s];
    }
    StreamsWithinCapacity(senders, burst, capacity, first, last);
  }

  lemma {:induction false} StreamLonger(s: Sender, burst: real, share: real, first: nat, last: nat, first': nat, last': nat)
    requires Stream(s, burst, share, first, last) && first' <= first && last <= last'
    ensures Stream(s, burst, share, first', last')
  {
  }

  method RunStream(rates: seq<real>, windowNs: nat, totalWindows: nat, msgSize: nat, burst: real, maxOutstanding: nat, start: nat, life: nat)
    returns (s: Sender)
    requires rates != [] && (forall k :: 0 <= k < |rates| ==> rates[k] >= 0.0) && burst >= 0.0
    ensures fresh(s) && s.Valid() && s.burstLimit == burst && s.rates == rates && start <= s.startTime
  {
    s := new Sender(rates, windowNs, msgSize, burst, maxOutstanding, start, life);
    s.RunRateLoop(totalWindows);
  }
}

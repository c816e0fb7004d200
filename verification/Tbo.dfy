/**
 The two-microbatch overlap scheduler. Each microbatch is a list of tasks in order: computes
 share one compute resource, transfers run in the background and only hold up their own
 microbatch's next compute. The greedy schedule is valid, finishes each microbatch within
 all compute plus that microbatch's own transfers, and is never more than twice as long as
 any valid schedule of the same layers.
 */
module Tbo {
  import opened Wrappers

  datatype Kind = Compute | Dispatch | Combine

  datatype Task = Task(kind: Kind, dur: real)

  type Tasks = t: seq<seq<Task>> | |t| == 2 witness [[], []]

  ghost predicate NonNegative(tasks: Tasks) {
    forall m, i :: 0 <= m < 2 && 0 <= i < |tasks[m]| ==> tasks[m][i].dur >= 0.0
  }

  // ---------- schedules ----------

  /** Start times of the first tasks of each microbatch. */
  type Starts = s: seq<seq<real>> | |s| == 2 witness [[], []]

  predicate Covers(tasks: Tasks, starts: Starts) {
    |starts[0]| <= |tasks[0]| && |starts[1]| <= |tasks[1]|
  }

  function EndOf(tasks: Tasks, starts: Starts, m: nat, i: nat): real
    requires m < 2 && i < |starts[m]| && i < |tasks[m]|
  {
    starts[m][i] + tasks[m][i].dur
  }

  /** Within a microbatch a compute waits for everything before it, a transfer for the computes before it. */
  ghost predicate InOrder(tasks: Tasks, starts: Starts, m: nat)
    requires m < 2 && Covers(tasks, starts)
  {
    && (forall i :: 0 <= i < |starts[m]| ==> starts[m][i] >= 0.0)
    && (forall j, i :: 0 <= j < i < |starts[m]| && (tasks[m][j].kind.Compute? || tasks[m][i].kind.Compute?) ==>
          EndOf(tasks, starts, m, j) <= starts[m][i])
  }

  /** No two computes of different microbatches overlap. */
  ghost predicate NoOverlap(tasks: Tasks, starts: Starts)
    requires Covers(tasks, starts)
  {
    forall i, j :: 0 <= i < |starts[0]| && 0 <= j < |starts[1]| && tasks[0][i].kind.Compute? && tasks[1][j].kind.Compute? ==>
      EndOf(tasks, starts, 0, i) <= starts[1][j] || EndOf(tasks, starts, 1, j) <= starts[0][i]
  }

  ghost predicate ValidSchedule(tasks: Tasks, starts: Starts) {
    Covers(tasks, starts) && InOrder(tasks, starts, 0) && InOrder(tasks, starts, 1) && NoOverlap(tasks, starts)
  }

  ghost predicate Full(tasks: Tasks, starts: Starts) {
    |starts[0]| == |tasks[0]| && |starts[1]| == |tasks[1]|
  }

  // ---------- the greedy scheduler ----------

  datatype Sched = Sched(starts: Starts, ready: seq<real>, inflight: seq<real>, computeFree: real)
  {
    predicate Shaped() {
      |ready| == 2 && |inflight| == 2
    }
  }

  function Max(a: real, b: real): real { if a >= b then a else b }

  predicate HasNext(tasks: Tasks, s: Sched, m: nat)
    requires m < 2
  {
    |s.starts[m]| < |tasks[m]|
  }

  function NextTask(tasks: Tasks, s: Sched, m: nat): Task
    requires m < 2 && HasNext(tasks, s, m)
  {
    tasks[m][|s.starts[m]|]
  }

  /** The earliest time the next task of a microbatch can start. */
  function Earliest(tasks: Tasks, s: Sched, m: nat): real
    requires s.Shaped() && m < 2 && HasNext(tasks, s, m)
  {
    if NextTask(tasks, s, m).kind.Compute? then Max(Max(s.ready[m], s.inflight[m]), s.computeFree) else s.ready[m]
  }

  function Priority(kind: Kind): nat { if kind.Compute? then 1 else 0 }

  /** The microbatch to serve: earliest first, transfers before computes, microbatch 0 before 1. */
  function Chosen(tasks: Tasks, s: Sched): nat
    requires s.Shaped() && (HasNext(tasks, s, 0) || HasNext(tasks, s, 1))
  {
    if !HasNext(tasks, s, 1) then 0
    else if !HasNext(tasks, s, 0) then 1
    else
      var e0, e1 := Earliest(tasks, s, 0), Earliest(tasks, s, 1);
      var p0, p1 := Priority(NextTask(tasks, s, 0).kind), Priority(NextTask(tasks, s, 1).kind);
      if e0 < e1 || (e0 == e1 && p0 <= p1) then 0 else 1
  }

  function Launch(tasks: Tasks, s: Sched, m: nat): Sched
    requires s.Shaped() && m < 2 && HasNext(tasks, s, m)
  {
    var task, start := NextTask(tasks, s, m), Earliest(tasks, s, m);
    var end := start + task.dur;
    var starts: Starts := s.starts[m := s.starts[m] + [start]];
    if task.kind.Compute? then s.(starts := starts, ready := s.ready[m := end], computeFree := end)
    else s.(starts := starts, inflight := s.inflight[m := Max(s.inflight[m], end)])
  }

  const Idle := Sched([[], []], [0.0, 0.0], [0.0, 0.0], 0.0)

  // ---------- work done ----------

  function ComputeSum(tasks: seq<Task>): real {
    if tasks == [] then 0.0
    else ComputeSum(tasks[..|tasks| - 1]) + (if tasks[|tasks| - 1].kind.Compute? then tasks[|tasks| - 1].dur else 0.0)
  }

  function TransferSum(tasks: seq<Task>): real {
    if tasks == [] then 0.0
    else TransferSum(tasks[..|tasks| - 1]) + (if tasks[|tasks| - 1].kind.Compute? then 0.0 else tasks[|tasks| - 1].dur)
  }

  /** The transfers that come before the last compute. */
  function TransfersBeforeLastCompute(tasks: seq<Task>): real {
    if tasks == [] then 0.0
    else if tasks[|tasks| - 1].kind.Compute? then TransferSum(tasks[..|tasks| - 1])
    else TransfersBeforeLastCompute(tasks[..|tasks| - 1])
  }

  function Done(tasks: Tasks, s: Sched, m: nat): seq<Task>
    requires m < 2 && |s.starts[m]| <= |tasks[m]|
  {
    tasks[m][..|s.starts[m]|]
  }

  function ComputeDone(tasks: Tasks, s: Sched): real
    requires Covers(tasks, s.starts)
  {
    ComputeSum(Done(tasks, s, 0)) + ComputeSum(Done(tasks, s, 1))
  }

  // ---------- what every step keeps ----------

  /** The scheduler's variables bound the ends of what has been started. */
  ghost predicate Tracks(tasks: Tasks, s: Sched, m: nat)
    requires m < 2 && s.Shaped() && Covers(tasks, s.starts)
  {
    && 0.0 <= s.ready[m] <= s.computeFree && 0.0 <= s.inflight[m]
    && (forall i :: 0 <= i < |s.starts[m]| ==>
          if tasks[m][i].kind.Compute? then EndOf(tasks, s.starts, m, i) <= s.ready[m]
          else EndOf(tasks, s.starts, m, i) <= s.inflight[m])
  }

  /** No microbatch is further along than all compute done plus its own transfers. */
  ghost predicate Bounded(tasks: Tasks, s: Sched, m: nat)
    requires m < 2 && s.Shaped() && Covers(tasks, s.starts)
  {
    var c, k := ComputeDone(tasks, s), TransferSum(Done(tasks, s, m));
    && s.ready[m] <= c + TransfersBeforeLastCompute(Done(tasks, s, m))
    && s.ready[m] <= c + k && s.inflight[m] <= c + k
    && (HasNext(tasks, s, m) ==> s.computeFree <= c + k)
  }

  ghost predicate Good(tasks: Tasks, s: Sched) {
    && s.Shaped() && ValidSchedule(tasks, s.starts)
    && Tracks(tasks, s, 0) && Tracks(tasks, s, 1)
    && Bounded(tasks, s, 0) && Bounded(tasks, s, 1)
  }

  lemma {:induction false} SumsExtend(tasks: seq<Task>, n: nat)
    requires n < |tasks|
    ensures ComputeSum(tasks[..n + 1]) == ComputeSum(tasks[..n]) + (if tasks[n].kind.Compute? then tasks[n].dur else 0.0)
    ensures TransferSum(tasks[..n + 1]) == TransferSum(tasks[..n]) + (if tasks[n].kind.Compute? then 0.0 else tasks[n].dur)
    ensures TransfersBeforeLastCompute(tasks[..n + 1])
         == if tasks[n].kind.Compute? then TransferSum(tasks[..n]) else TransfersBeforeLastCompute(tasks[..n])
  {
    assert tasks[..n + 1][..n] == tasks[..n];
  }

  lemma {:induction false} LaunchTracks(tasks: Tasks, s: Sched, m: nat, k: nat)
    requires NonNegative(tasks) && s.Shaped() && Covers(tasks, s.starts) && m < 2 && k < 2 && HasNext(tasks, s, m)
    requires Tracks(tasks, s, 0) && Tracks(tasks, s, 1)
    ensures Covers(tasks, Launch(tasks, s, m).starts) && Tracks(tasks, Launch(tasks, s, m), k)
  {
    var s', n := Launch(tasks, s, m), |s.starts[m]|;
    assert tasks[m][n].dur >= 0.0;
    forall i | 0 <= i < |s'.starts[k]|
      ensures if tasks[k][i].kind.Compute? then EndOf(tasks, s'.starts, k, i) <= s'.ready[k]
              else EndOf(tasks, s'.starts, k, i) <= s'.inflight[k]
    {
      if k != m || i < n {
        assert EndOf(tasks, s'.starts, k, i) == EndOf(tasks, s.starts, k, i);
      }
    }
  }

  lemma {:induction false} LaunchInOrder(tasks: Tasks, s: Sched, m: nat, k: nat)
    requires s.Shaped() && Covers(tasks, s.starts) && m < 2 && k < 2 && HasNext(tasks, s, m)
    requires InOrder(tasks, s.starts, k) && Tracks(tasks, s, m)
    ensures Covers(tasks, Launch(tasks, s, m).starts) && InOrder(tasks, Launch(tasks, s, m).starts, k)
  {
    var s', n := Launch(tasks, s, m), |s.starts[m]|;
    forall j, i | 0 <= j < i < |s'.starts[k]| && (tasks[k][j].kind.Compute? || tasks[k][i].kind.Compute?)
      ensures EndOf(tasks, s'.starts, k, j) <= s'.starts[k][i]
    {
      assert EndOf(tasks, s'.starts, k, j) == EndOf(tasks, s.starts, k, j);
      if k == m && i == n {
        assert s'.starts[k][i] == Earliest(tasks, s, m);
      }
    }
  }

  lemma {:induction false} LaunchNoOverlap(tasks: Tasks, s: Sched, m: nat)
    requires s.Shaped() && Covers(tasks, s.starts) && m < 2 && HasNext(tasks, s, m)
    requires NoOverlap(tasks, s.starts) && Tracks(tasks, s, 0) && Tracks(tasks, s, 1)
    ensures Covers(tasks, Launch(tasks, s, m).starts) && NoOverlap(tasks, Launch(tasks, s, m).starts)
  {
    var s', n := Launch(tasks, s, m), |s.starts[m]|;
    forall i, j | 0 <= i < |s'.starts[0]| && 0 <= j < |s'.starts[1]| && tasks[0][i].kind.Compute? && tasks[1][j].kind.Compute?
      ensures EndOf(tasks, s'.starts, 0, i) <= s'.starts[1][j] || EndOf(tasks, s'.starts, 1, j) <= s'.starts[0][i]
    {
      if m == 0 && i == n {
        assert EndOf(tasks, s'.starts, 1, j) == EndOf(tasks, s.starts, 1, j) <= s.computeFree;
      } else if m == 1 && j == n {
        assert EndOf(tasks, s'.starts, 0, i) == EndOf(tasks, s.starts, 0, i) <= s.computeFree;
      } else {
        assert EndOf(tasks, s.starts, 0, i) <= s.starts[1][j] || EndOf(tasks, s.starts, 1, j) <= s.starts[0][i];
      }
    }
  }

  /**
   The chosen microbatch starts no later than the other one could. At the same time a
   transfer goes before a compute, and of two alike microbatch 0 goes first.
   */
  lemma {:induction false} ChosenIsEarliest(tasks: Tasks, s: Sched, other: nat)
    requires s.Shaped() && other < 2 && HasNext(tasks, s, other) && HasNext(tasks, s, 1 - other)
    requires Chosen(tasks, s) == 1 - other
    ensures Earliest(tasks, s, 1 - other) <= Earliest(tasks, s, other)
    ensures Earliest(tasks, s, 1 - other) == Earliest(tasks, s, other) ==>
              var mine, theirs := NextTask(tasks, s, 1 - other).kind.Compute?, NextTask(tasks, s, other).kind.Compute?;
              if mine == theirs then other == 1 else theirs
  {
  }

  lemma {:induction false} LaunchBounded(tasks: Tasks, s: Sched)
    requires NonNegative(tasks) && Good(tasks, s) && (HasNext(tasks, s, 0) || HasNext(tasks, s, 1))
    requires Covers(tasks, Launch(tasks, s, Chosen(tasks, s)).starts)
    ensures var s' := Launch(tasks, s, Chosen(tasks, s)); Bounded(tasks, s', 0) && Bounded(tasks, s', 1)
  {
    hide ValidSchedule, Tracks;
    var m := Chosen(tasks, s);
    var s', n, other := Launch(tasks, s, m), |s.starts[m]|, 1 - m;
    assert tasks[m][n].dur >= 0.0;
    SumsExtend(tasks[m], n);
    assert Done(tasks, s', m) == tasks[m][..n + 1] && Done(tasks, s', other) == Done(tasks, s, other);
    if HasNext(tasks, s, other) {
      ChosenIsEarliest(tasks, s, other);
    }
  }

  lemma {:induction false} LaunchKeeps(tasks: Tasks, s: Sched)
    requires NonNegative(tasks) && Good(tasks, s) && (HasNext(tasks, s, 0) || HasNext(tasks, s, 1))
    ensures Good(tasks, Launch(tasks, s, Chosen(tasks, s)))
  {
    hide Tracks, InOrder, NoOverlap, Bounded, NonNegative;
    var m := Chosen(tasks, s);
    LaunchTracks(tasks, s, m, 0);
    LaunchTracks(tasks, s, m, 1);
    LaunchInOrder(tasks, s, m, 0);
    LaunchInOrder(tasks, s, m, 1);
    LaunchNoOverlap(tasks, s, m);
    LaunchBounded(tasks, s);
  }

  /** The end of the last compute of a microbatch; 0 when it has none. */
  ghost predicate FinishesAt(tasks: Tasks, starts: Starts, m: nat, t: real)
    requires m < 2 && Covers(tasks, starts)
  {
    && (forall i :: 0 <= i < |starts[m]| && tasks[m][i].kind.Compute? ==> EndOf(tasks, starts, m, i) <= t)
    && (t == 0.0 || exists i :: 0 <= i < |starts[m]| && tasks[m][i].kind.Compute? && EndOf(tasks, starts, m, i) == t)
  }

  lemma {:induction false} LaunchFinishes(tasks: Tasks, s: Sched, m: nat, k: nat)
    requires NonNegative(tasks) && s.Shaped() && Covers(tasks, s.starts) && m < 2 && k < 2 && HasNext(tasks, s, m)
    requires Tracks(tasks, s, 0) && Tracks(tasks, s, 1) && FinishesAt(tasks, s.starts, k, s.ready[k])
    ensures Covers(tasks, Launch(tasks, s, m).starts) && FinishesAt(tasks, Launch(tasks, s, m).starts, k, Launch(tasks, s, m).ready[k])
  {
    var s', n := Launch(tasks, s, m), |s.starts[m]|;
    LaunchTracks(tasks, s, m, k);
    assert forall i :: 0 <= i < |s.starts[k]| ==> EndOf(tasks, s'.starts, k, i) == EndOf(tasks, s.starts, k, i);
    if k == m && tasks[m][n].kind.Compute? {
      assert EndOf(tasks, s'.starts, m, n) == s'.ready[m];
    } else if s.ready[k] != 0.0 {
      var i :| 0 <= i < |s.starts[k]| && tasks[k][i].kind.Compute? && EndOf(tasks, s.starts, k, i) == s.ready[k];
      assert EndOf(tasks, s'.starts, k, i) == s'.ready[k];
    }
  }

  lemma {:induction false} IdleIsGood(tasks: Tasks)
    ensures Good(tasks, Idle) && FinishesAt(tasks, Idle.starts, 0, 0.0) && FinishesAt(tasks, Idle.starts, 1, 0.0)
  {
  }

  /** A launch that could come next: its earliest start, its rank among launches at that time, its microbatch. */
  datatype Candidate = Candidate(start: real, rank: nat, mb: nat)
  {
    predicate Before(c: Candidate) {
      start < c.start || (start == c.start && (rank < c.rank || (rank == c.rank && mb < c.mb)))
    }
  }

  /** The launch that comes next, or none when every task has been placed. */
  ghost predicate IsNext(tasks: Tasks, s: Sched, next: Option<Candidate>)
    requires s.Shaped()
  {
    match next
    case None => !HasNext(tasks, s, 0) && !HasNext(tasks, s, 1)
    case Some(c) => c.mb < 2 && HasNext(tasks, s, c.mb) && c.mb == Chosen(tasks, s) && c.start == Earliest(tasks, s, c.mb)
  }

  /** The least of the launches that could come next. */
  method NextLaunch(tasks: Tasks, s: Sched) returns (least: Option<Candidate>)
    requires s.Shaped()
    ensures IsNext(tasks, s, least)
  {
    least := None;
    ghost var before: Option<Candidate> := None;
    for m := 0 to 2
      invariant m == 0 ==> least.None?
      invariant m == 1 ==> least == before
      invariant m >= 1 ==> before == if HasNext(tasks, s, 0) then Some(CandidateOf(tasks, s, 0)) else None
      invariant m == 2 ==> least == if !HasNext(tasks, s, 1) then before
                                    else if before.None? || CandidateOf(tasks, s, 1).Before(before.value) then Some(CandidateOf(tasks, s, 1))
                                    else before
    {
      if |s.starts[m]| < |tasks[m]| {
        var kind := tasks[m][|s.starts[m]|].kind;
        var start := if kind.Compute? then Max(s.ready[m], Max(s.inflight[m], s.computeFree)) else s.ready[m];
        var c := Candidate(start, if kind.Compute? then 1 else 0, m);
        if least.None? || c.Before(least.value) {
          least := Some(c);
        }
      }
      if m == 0 {
        before := least;
      }
    }
  }

  function CandidateOf(tasks: Tasks, s: Sched, m: nat): Candidate
    requires s.Shaped() && m < 2 && HasNext(tasks, s, m)
  {
    Candidate(Earliest(tasks, s, m), Priority(NextTask(tasks, s, m).kind), m)
  }

  /** Starts the next task of a microbatch: a compute occupies the microbatch and the compute resource, a transfer is in flight. */
  method Place(tasks: Tasks, s: Sched, c: Candidate) returns (s': Sched)
    requires s.Shaped() && IsNext(tasks, s, Some(c))
    ensures s' == Launch(tasks, s, Chosen(tasks, s))
  {
    var task := tasks[c.mb][|s.starts[c.mb]|];
    var end := c.start + task.dur;
    if task.kind.Compute? {
      s' := s.(ready := s.ready[c.mb := end], computeFree := end);
    } else {
      s' := s.(inflight := s.inflight[c.mb := Max(s.inflight[c.mb], end)]);
    }
    s' := s'.(starts := s.starts[c.mb := s.starts[c.mb] + [c.start]]);
  }

  /**
   The scheduling loop. It places every task, validly; the finish times it returns are the
   ends of each microbatch's last compute, which leaves out that microbatch's last transfer.
   */
  method ScheduleResources(tasks: Tasks) returns (finish0: real, finish1: real, starts: Starts)
    requires NonNegative(tasks)
    ensures Full(tasks, starts) && ValidSchedule(tasks, starts)
    ensures FinishesAt(tasks, starts, 0, finish0) && FinishesAt(tasks, starts, 1, finish1)
    ensures finish0 <= ComputeSum(tasks[0]) + ComputeSum(tasks[1]) + TransfersBeforeLastCompute(tasks[0])
    ensures finish1 <= ComputeSum(tasks[0]) + ComputeSum(tasks[1]) + TransfersBeforeLastCompute(tasks[1])
  {
    hide InOrder, NoOverlap, Tracks, NonNegative, TransferSum, ComputeSum, TransfersBeforeLastCompute;
    var s := Idle;
    IdleIsGood(tasks);
    var next := NextLaunch(tasks, s);
    while next.Some?
      invariant Good(tasks, s) && IsNext(tasks, s, next)
      invariant FinishesAt(tasks, s.starts, 0, s.ready[0]) && FinishesAt(tasks, s.starts, 1, s.ready[1])
      decreases |tasks[0]| + |tasks[1]| - |s.starts[0]| - |s.starts[1]|
    {
      hide FinishesAt, Bounded, Chosen, Earliest;
      var m := next.value.mb;
      LaunchKeeps(tasks, s);
      LaunchFinishes(tasks, s, m, 0);
      LaunchFinishes(tasks, s, m, 1);
      s := Place(tasks, s, next.value);
      next := NextLaunch(tasks, s);
    }
    finish0, finish1, starts := s.ready[0], s.ready[1], s.starts;
    assert Done(tasks, s, 0) == tasks[0] && Done(tasks, s, 1) == tasks[1];
    assert Bounded(tasks, s, 0) && Bounded(tasks, s, 1);
  }

  // ---------- no valid schedule is much better ----------

  ghost predicate ComputesEndBy(tasks: Tasks, starts: Starts, i: nat, j: nat, t: real)
    requires Covers(tasks, starts) && i <= |starts[0]| && j <= |starts[1]|
  {
    && (forall a :: 0 <= a < i && tasks[0][a].kind.Compute? ==> EndOf(tasks, starts, 0, a) <= t)
    && (forall b :: 0 <= b < j && tasks[1][b].kind.Compute? ==> EndOf(tasks, starts, 1, b) <= t)
  }

  /** The schedule does all tasks, validly, with every compute over by t. */
  ghost predicate Achieves(tasks: Tasks, starts: Starts, t: real) {
    ValidSchedule(tasks, starts) && Full(tasks, starts) && t >= 0.0 && ComputesEndBy(tasks, starts, |starts[0]|, |starts[1]|, t)
  }

  lemma {:induction false} EmptySum()
    ensures ComputeSum([]) == 0.0
  {
  }

  /** What comes before a compute that starts last is over when it starts. */
  lemma {:induction false} OverBefore0(tasks: Tasks, starts: Starts, i: nat, j: nat)
    requires NonNegative(tasks) && ValidSchedule(tasks, starts) && 0 < i <= |starts[0]| && j <= |starts[1]|
    requires tasks[0][i - 1].kind.Compute? && (j > 0 ==> tasks[1][j - 1].kind.Compute? && EndOf(tasks, starts, 1, j - 1) <= starts[0][i - 1])
    ensures ComputesEndBy(tasks, starts, i - 1, j, starts[0][i - 1])
  {
    hide NoOverlap;
    forall b | 0 <= b < j && tasks[1][b].kind.Compute? ensures EndOf(tasks, starts, 1, b) <= starts[0][i - 1] {
      assert b < j - 1 ==> EndOf(tasks, starts, 1, b) <= starts[1][j - 1];
      assert tasks[1][j - 1].dur >= 0.0;
    }
  }

  lemma {:induction false} OverBefore1(tasks: Tasks, starts: Starts, i: nat, j: nat)
    requires NonNegative(tasks) && ValidSchedule(tasks, starts) && i <= |starts[0]| && 0 < j <= |starts[1]|
    requires tasks[1][j - 1].kind.Compute? && (i > 0 ==> tasks[0][i - 1].kind.Compute? && EndOf(tasks, starts, 0, i - 1) <= starts[1][j - 1])
    ensures ComputesEndBy(tasks, starts, i, j - 1, starts[1][j - 1])
  {
    hide NoOverlap;
    forall a | 0 <= a < i && tasks[0][a].kind.Compute? ensures EndOf(tasks, starts, 0, a) <= starts[1][j - 1] {
      assert a < i - 1 ==> EndOf(tasks, starts, 0, a) <= starts[0][i - 1];
      assert tasks[0][i - 1].dur >= 0.0;
    }
  }

  /** Computes that do not overlap take, together, at least as long as their durations add up to. */
  lemma {:induction false} ComputesTakeTime(tasks: Tasks, starts: Starts, i: nat, j: nat, t: real)
    requires NonNegative(tasks) && ValidSchedule(tasks, starts) && i <= |starts[0]| && j <= |starts[1]|
    requires t >= 0.0 && ComputesEndBy(tasks, starts, i, j, t)
    ensures ComputeSum(tasks[0][..i]) + ComputeSum(tasks[1][..j]) <= t
    decreases i + j
  {
    hide ComputeSum, TransferSum, TransfersBeforeLastCompute, NonNegative;
    if i > 0 && !tasks[0][i - 1].kind.Compute? {
      SumsExtend(tasks[0], i - 1);
      ComputesTakeTime(tasks, starts, i - 1, j, t);
    } else if j > 0 && !tasks[1][j - 1].kind.Compute? {
      SumsExtend(tasks[1], j - 1);
      ComputesTakeTime(tasks, starts, i, j - 1, t);
    } else if i > 0 && (j == 0 || EndOf(tasks, starts, 1, j - 1) <= starts[0][i - 1]) {
      SumsExtend(tasks[0], i - 1);
      OverBefore0(tasks, starts, i, j);
      hide NoOverlap;
      ComputesTakeTime(tasks, starts, i - 1, j, starts[0][i - 1]);
    } else if j > 0 {
      SumsExtend(tasks[1], j - 1);
      OverBefore1(tasks, starts, i, j);
      hide NoOverlap;
      ComputesTakeTime(tasks, starts, i, j - 1, starts[1][j - 1]);
    } else {
      EmptySum();
      assert tasks[0][..0] == [] && tasks[1][..0] == [];
    }
  }

  /** Computes and transfers alternate, as the layers build them: attention, dispatch, experts, combine, ... */
  ghost predicate Alternates(tasks: seq<Task>) {
    forall i :: 0 <= i < |tasks| ==> (tasks[i].kind.Compute? <==> i % 2 == 0)
  }

  function Sum(tasks: seq<Task>): real {
    if tasks == [] then 0.0 else Sum(tasks[..|tasks| - 1]) + tasks[|tasks| - 1].dur
  }

  /** In an alternating microbatch every task waits for the one before it, so a chain of tasks takes its total length. */
  lemma {:induction false} ChainTakesTime(tasks: Tasks, starts: Starts, m: nat, i: nat)
    requires NonNegative(tasks) && ValidSchedule(tasks, starts) && m < 2 && i < |starts[m]| && Alternates(tasks[m])
    ensures Sum(tasks[m][..i + 1]) <= EndOf(tasks, starts, m, i)
  {
    assert InOrder(tasks, starts, m);
    assert tasks[m][..i + 1][..i] == tasks[m][..i];
    if i > 0 {
      ChainTakesTime(tasks, starts, m, i - 1);
      assert tasks[m][i - 1].kind.Compute? || tasks[m][i].kind.Compute?;
      assert EndOf(tasks, starts, m, i - 1) <= starts[m][i];
    }
  }

  lemma {:induction false} TransfersWithinChain(tasks: seq<Task>, i: nat)
    requires i < |tasks| && tasks[i].kind.Compute? && forall k :: 0 <= k < |tasks| ==> tasks[k].dur >= 0.0
    requires forall k :: i < k < |tasks| ==> !tasks[k].kind.Compute?
    ensures TransfersBeforeLastCompute(tasks) <= Sum(tasks[..i + 1])
  {
    if i == |tasks| - 1 {
      assert tasks[..i + 1] == tasks;
      TransfersAtMostAll(tasks[..i]);
    } else {
      assert tasks[..|tasks| - 1][..i + 1] == tasks[..i + 1];
      TransfersWithinChain(tasks[..|tasks| - 1], i);
    }
  }

  lemma {:induction false} TransfersAtMostAll(tasks: seq<Task>)
    requires forall k :: 0 <= k < |tasks| ==> tasks[k].dur >= 0.0
    ensures TransferSum(tasks) <= Sum(tasks)
  {
    if tasks != [] {
      TransfersAtMostAll(tasks[..|tasks| - 1]);
    }
  }

  lemma {:induction false} NoComputeNoTransfers(tasks: seq<Task>)
    requires forall k :: 0 <= k < |tasks| ==> !tasks[k].kind.Compute?
    ensures TransfersBeforeLastCompute(tasks) == 0.0
  {
    if tasks != [] {
      NoComputeNoTransfers(tasks[..|tasks| - 1]);
    }
  }

  lemma {:induction false} LastCompute(tasks: seq<Task>) returns (i: nat)
    requires exists k :: 0 <= k < |tasks| && tasks[k].kind.Compute?
    ensures i < |tasks| && tasks[i].kind.Compute? && forall k :: i < k < |tasks| ==> !tasks[k].kind.Compute?
  {
    if tasks[|tasks| - 1].kind.Compute? {
      i := |tasks| - 1;
    } else {
      i := LastCompute(tasks[..|tasks| - 1]);
    }
  }

  /** A microbatch's transfers before its last compute fit in any valid schedule. */
  lemma {:induction false} TransfersFit(tasks: Tasks, starts: Starts, m: nat, t: real)
    requires NonNegative(tasks) && ValidSchedule(tasks, starts) && Full(tasks, starts) && m < 2 && Alternates(tasks[m])
    requires t >= 0.0 && forall i :: 0 <= i < |starts[m]| && tasks[m][i].kind.Compute? ==> EndOf(tasks, starts, m, i) <= t
    ensures TransfersBeforeLastCompute(tasks[m]) <= t
  {
    if exists k :: 0 <= k < |tasks[m]| && tasks[m][k].kind.Compute? {
      var i := LastCompute(tasks[m]);
      assert forall k :: 0 <= k < |tasks[m]| ==> tasks[m][k].dur >= 0.0;
      TransfersWithinChain(tasks[m], i);
      ChainTakesTime(tasks, starts, m, i);
    } else {
      NoComputeNoTransfers(tasks[m]);
    }
  }

  /**
   The greedy finish times are at most twice the makespan of any valid schedule of the same
   tasks, whatever that schedule is.
   */
  lemma {:induction false} TwiceTheBest(tasks: Tasks, finish: real, m: nat, other: Starts, makespan: real)
    requires NonNegative(tasks) && m < 2 && Alternates(tasks[m])
    requires finish <= ComputeSum(tasks[0]) + ComputeSum(tasks[1]) + TransfersBeforeLastCompute(tasks[m])
    requires Achieves(tasks, other, makespan)
    ensures finish <= 2.0 * makespan
  {
    NoShorter(tasks, other, makespan);
    TransfersFit(tasks, other, m, makespan);
  }

  // ---------- the steps of one iteration ----------

  datatype LayerTimes = LayerTimes(attention: real, dispatch: real, experts: real, combine: real)

  function LayerTasks(t: LayerTimes): seq<Task> {
    [Task(Compute, t.attention), Task(Dispatch, t.dispatch), Task(Compute, t.experts), Task(Combine, t.combine)]
  }

  function AllTasks(layers: seq<LayerTimes>): seq<Task> {
    if layers == [] then [] else AllTasks(layers[..|layers| - 1]) + LayerTasks(layers[|layers| - 1])
  }

  ghost predicate NonNegativeTimes(layers: seq<LayerTimes>) {
    forall l :: 0 <= l < |layers| ==>
      layers[l].attention >= 0.0 && layers[l].dispatch >= 0.0 && layers[l].experts >= 0.0 && layers[l].combine >= 0.0
  }

  /** The four tasks of layer `l`: its attention, its dispatch, its experts, its combine. */
  ghost predicate LayerAt(tasks: seq<Task>, l: nat, t: LayerTimes) {
    && 4 * l + 3 < |tasks|
    && tasks[4 * l] == Task(Compute, t.attention) && tasks[4 * l + 1] == Task(Dispatch, t.dispatch)
    && tasks[4 * l + 2] == Task(Compute, t.experts) && tasks[4 * l + 3] == Task(Combine, t.combine)
  }

  lemma {:induction false} LayersInPlace(layers: seq<LayerTimes>, l: nat)
    ensures |AllTasks(layers)| == 4 * |layers| && (l < |layers| ==> LayerAt(AllTasks(layers), l, layers[l]))
  {
    if layers != [] {
      LayersInPlace(layers[..|layers| - 1], l);
    }
  }

  /** Layer after layer the four tasks with the layer's times, so that computes and transfers alternate. */
  lemma {:induction false} TasksAlternate(layers: seq<LayerTimes>)
    requires NonNegativeTimes(layers)
    ensures |AllTasks(layers)| == 4 * |layers| && Alternates(AllTasks(layers))
    ensures forall l :: 0 <= l < |layers| ==> LayerAt(AllTasks(layers), l, layers[l])
    ensures forall i :: 0 <= i < |AllTasks(layers)| ==> AllTasks(layers)[i].dur >= 0.0
  {
    hide AllTasks, LayerAt;
    var tasks := AllTasks(layers);
    LayersInPlace(layers, 0);
    forall l | 0 <= l < |layers| ensures LayerAt(tasks, l, layers[l]) {
      LayersInPlace(layers, l);
    }
    forall i: nat | i < |tasks| ensures tasks[i].dur >= 0.0 && (tasks[i].kind.Compute? <==> i % 2 == 0) {
      TaskInLayer(tasks, i / 4, i, layers[i / 4]);
    }
  }

  lemma {:induction false} TaskInLayer(tasks: seq<Task>, l: nat, i: nat, t: LayerTimes)
    requires LayerAt(tasks, l, t) && 4 * l <= i < 4 * l + 4
    requires t.attention >= 0.0 && t.dispatch >= 0.0 && t.experts >= 0.0 && t.combine >= 0.0
    ensures tasks[i].dur >= 0.0 && (tasks[i].kind.Compute? <==> i % 2 == 0)
  {
    Parity(l, i - 4 * l);
    assert i == 4 * l || i == 4 * l + 1 || i == 4 * l + 2 || i == 4 * l + 3;
  }

  lemma {:induction false} Parity(l: nat, k: nat)
    ensures (4 * l + k) % 2 == k % 2
  {
  }

  /** Attention and experts of all layers. */
  function ComputeTime(layers: seq<LayerTimes>): real {
    if layers == [] then 0.0
    else ComputeTime(layers[..|layers| - 1]) + layers[|layers| - 1].attention + layers[|layers| - 1].experts
  }

  /** Dispatch of all layers, and combine of all but the last. */
  function WaitTime(layers: seq<LayerTimes>): real {
    if layers == [] then 0.0
    else if |layers| == 1 then layers[0].dispatch
    else WaitTime(layers[..|layers| - 1]) + layers[|layers| - 2].combine + layers[|layers| - 1].dispatch
  }

  lemma {:induction false} FourMore(tasks: seq<Task>, t: LayerTimes)
    ensures ComputeSum(tasks + LayerTasks(t)) == ComputeSum(tasks) + t.attention + t.experts
    ensures TransferSum(tasks + LayerTasks(t)) == TransferSum(tasks) + t.dispatch + t.combine
    ensures TransfersBeforeLastCompute(tasks + LayerTasks(t)) == TransferSum(tasks) + t.dispatch
  {
    hide ComputeSum, TransferSum, TransfersBeforeLastCompute;
    var all, n := tasks + LayerTasks(t), |tasks|;
    assert all[..n] == tasks && all[..n + 4] == all;
    SumsExtend(all, n);
    SumsExtend(all, n + 1);
    SumsExtend(all, n + 2);
    SumsExtend(all, n + 3);
  }

  lemma {:induction false} LayersAddUp(layers: seq<LayerTimes>)
    ensures ComputeSum(AllTasks(layers)) == ComputeTime(layers)
    ensures TransfersBeforeLastCompute(AllTasks(layers)) == WaitTime(layers)
    ensures TransferSum(AllTasks(layers)) == WaitTime(layers) + if layers == [] then 0.0 else layers[|layers| - 1].combine
  {
    if layers != [] {
      var before := layers[..|layers| - 1];
      LayersAddUp(before);
      FourMore(AllTasks(before), layers[|layers| - 1]);
    }
  }

  /**
   The experts of layer `l` start only after its attention and dispatch, and the next layer's
   attention only after its experts and combine.
   */
  ghost predicate LayerFollows(layers: seq<LayerTimes>, starts: seq<real>, l: nat)
    requires |starts| == 4 * |layers| && l < |layers|
  {
    && starts[4 * l + 2] >= starts[4 * l] + layers[l].attention + layers[l].dispatch
    && (l + 1 < |layers| ==> starts[4 * l + 4] >= starts[4 * l + 2] + layers[l].experts + layers[l].combine)
  }

  /** Every layer follows, and the microbatch is finished when the last layer's experts are. */
  ghost predicate FollowsLayers(layers: seq<LayerTimes>, starts: seq<real>, finish: real) {
    && |starts| == 4 * |layers|
    && (forall l :: 0 <= l < |layers| ==> LayerFollows(layers, starts, l))
    && finish == if layers == [] then 0.0 else starts[4 * |layers| - 2] + layers[|layers| - 1].experts
  }

  lemma {:induction false} ScheduleFollowsLayers(tasks: Tasks, starts: Starts, m: nat, layers: seq<LayerTimes>, finish: real)
    requires NonNegativeTimes(layers) && m < 2 && tasks[m] == AllTasks(layers)
    requires ValidSchedule(tasks, starts) && Full(tasks, starts) && FinishesAt(tasks, starts, m, finish)
    ensures FollowsLayers(layers, starts[m], finish)
  {
    hide NoOverlap, NonNegativeTimes, Alternates, AllTasks, LayerAt, InOrder, LayerFollows, FinishesAt;
    TasksAlternate(layers);
    assert InOrder(tasks, starts, m);
    forall l | 0 <= l < |layers| ensures LayerFollows(layers, starts[m], l) {
      LayerInOrder(tasks, starts, m, l, layers);
    }
    LastExpertsFinish(tasks, starts, m, layers, finish);
  }

  lemma {:induction false} LayerInOrder(tasks: Tasks, starts: Starts, m: nat, l: nat, layers: seq<LayerTimes>)
    requires m < 2 && Covers(tasks, starts) && InOrder(tasks, starts, m) && l < |layers| && |starts[m]| == 4 * |layers|
    requires LayerAt(tasks[m], l, layers[l]) && (l + 1 < |layers| ==> LayerAt(tasks[m], l + 1, layers[l + 1]))
    ensures LayerFollows(layers, starts[m], l)
  {
    var i := 4 * l;
    assert EndOf(tasks, starts, m, i) <= starts[m][i + 1] && EndOf(tasks, starts, m, i + 1) <= starts[m][i + 2];
    assert EndOf(tasks, starts, m, i + 2) <= starts[m][i + 3];
    if l + 1 < |layers| {
      assert tasks[m][4 * (l + 1)].kind.Compute?;
      assert EndOf(tasks, starts, m, i + 3) <= starts[m][i + 4];
    }
  }

  /** Of all computes of a microbatch the last layer's experts are the last to end. */
  lemma {:induction false} LastExpertsFinish(tasks: Tasks, starts: Starts, m: nat, layers: seq<LayerTimes>, finish: real)
    requires NonNegativeTimes(layers) && m < 2 && tasks[m] == AllTasks(layers) && Covers(tasks, starts) && |starts[m]| == |tasks[m]|
    requires InOrder(tasks, starts, m) && FinishesAt(tasks, starts, m, finish)
    ensures if layers == [] then finish == 0.0 else |starts[m]| == 4 * |layers| && finish == starts[m][4 * |layers| - 2] + layers[|layers| - 1].experts
  {
    hide AllTasks;
    TasksAlternate(layers);
    if layers != [] {
      var n := |layers| - 1;
      assert LayerAt(tasks[m], n, layers[n]);
      var last := 4 * n + 2;
      assert EndOf(tasks, starts, m, last) == starts[m][last] + layers[n].experts <= finish;
      if finish != 0.0 {
        var i :| 0 <= i < |starts[m]| && tasks[m][i].kind.Compute? && EndOf(tasks, starts, m, i) == finish;
        if i < last {
          assert EndOf(tasks, starts, m, i) <= starts[m][last];
        }
      }
    }
  }

  /**
   One iteration over all layers: a valid overlap of the two microbatches, at most twice as
   long as any other. A microbatch finishes within the attention and experts times of both,
   its own dispatch times, and its own combine times without the last.
   */
  method RunIteration(mb0: seq<LayerTimes>, mb1: seq<LayerTimes>)
    returns (makespan: real, finish0: real, finish1: real, starts: Starts)
    requires |mb0| == |mb1| && NonNegativeTimes(mb0) && NonNegativeTimes(mb1)
    ensures Achieves([AllTasks(mb0), AllTasks(mb1)], starts, makespan)
    ensures FollowsLayers(mb0, starts[0], finish0) && FollowsLayers(mb1, starts[1], finish1)
    ensures finish0 <= ComputeTime(mb0) + ComputeTime(mb1) + WaitTime(mb0)
    ensures finish1 <= ComputeTime(mb0) + ComputeTime(mb1) + WaitTime(mb1)
    ensures makespan == Max(finish0, finish1) >= ComputeTime(mb0) + ComputeTime(mb1)
    ensures forall other: Starts, t: real :: Achieves([AllTasks(mb0), AllTasks(mb1)], other, t) ==> makespan <= 2.0 * t
  {
    hide ValidSchedule, ComputesEndBy, NonNegativeTimes, ComputeSum, TransfersBeforeLastCompute, FollowsLayers, LayerAt;
    var t0: seq<Task>, t1: seq<Task> := [], [];
    for l := 0 to |mb0|
      invariant t0 == AllTasks(mb0[..l]) && t1 == AllTasks(mb1[..l])
    {
      assert mb0[..l + 1][..l] == mb0[..l] && mb1[..l + 1][..l] == mb1[..l];
      t0 := t0 + [Task(Compute, mb0[l].attention), Task(Dispatch, mb0[l].dispatch), Task(Compute, mb0[l].experts), Task(Combine, mb0[l].combine)];
      t1 := t1 + [Task(Compute, mb1[l].attention), Task(Dispatch, mb1[l].dispatch), Task(Compute, mb1[l].experts), Task(Combine, mb1[l].combine)];
    }
    assert mb0[..|mb0|] == mb0 && mb1[..|mb1|] == mb1;
    TasksAlternate(mb0);
    TasksAlternate(mb1);
    var tasks: Tasks := [t0, t1];
    finish0, finish1, starts := ScheduleResources(tasks);
    makespan := Max(finish0, finish1);
    LayersAddUp(mb0);
    LayersAddUp(mb1);
    ScheduleFollowsLayers(tasks, starts, 0, mb0, finish0);
    ScheduleFollowsLayers(tasks, starts, 1, mb1, finish1);
    assert Achieves(tasks, starts, makespan) by {
      Finished(tasks, starts, finish0, finish1);
    }
    NoShorter(tasks, starts, makespan);
    hide Achieves;
    forall other: Starts, t: real | Achieves(tasks, other, t) ensures makespan <= 2.0 * t {
      TwiceTheBest(tasks, finish0, 0, other, t);
      TwiceTheBest(tasks, finish1, 1, other, t);
    }
  }

  /** No schedule is shorter than its computes add up to. */
  lemma {:induction false} NoShorter(tasks: Tasks, starts: Starts, makespan: real)
    requires NonNegative(tasks) && Achieves(tasks, starts, makespan)
    ensures ComputeSum(tasks[0]) + ComputeSum(tasks[1]) <= makespan
  {
    hide ValidSchedule, ComputesEndBy;
    ComputesTakeTime(tasks, starts, |starts[0]|, |starts[1]|, makespan);
    assert tasks[0][..|starts[0]|] == tasks[0] && tasks[1][..|starts[1]|] == tasks[1];
  }

  lemma {:induction false} Finished(tasks: Tasks, starts: Starts, finish0: real, finish1: real)
    requires NonNegative(tasks) && ValidSchedule(tasks, starts) && Full(tasks, starts)
    requires FinishesAt(tasks, starts, 0, finish0) && FinishesAt(tasks, starts, 1, finish1)
    ensures Achieves(tasks, starts, Max(finish0, finish1))
  {
    if finish0 != 0.0 {
      var i :| 0 <= i < |starts[0]| && tasks[0][i].kind.Compute? && EndOf(tasks, starts, 0, i) == finish0;
      assert starts[0][i] >= 0.0 && tasks[0][i].dur >= 0.0;
    }
  }
}

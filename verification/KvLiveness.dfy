/**
 Which prompts the hand-off serves. Jobs leave the queue in submission order, and each
 unservable one takes a worker with it, so what a job's place in the submission order needs
 is a worker that is still alive. Without further submissions every run ends, and where it
 ends a prompt has been installed exactly when it is servable and fewer unservable prompts
 than there are workers came before it.
 */
module KvLiveness {
  import opened KvHandoff

  /** How many of the jobs end the worker that takes them. */
  function Unservable(jobs: seq<Job>, stagingPages: nat): nat {
    if jobs == [] then 0
    else Unservable(jobs[..|jobs| - 1], stagingPages) + if jobs[|jobs| - 1].Servable(stagingPages) then 0 else 1
  }

  function DeadIn(workers: seq<Phase>): nat {
    if workers == [] then 0 else DeadIn(workers[..|workers| - 1]) + if workers[|workers| - 1].Dead? then 1 else 0
  }

  /** The jobs taken so far are a prefix of the submitted ones; its unservable jobs are the dead workers. */
  ghost predicate InOrder(s: State, numWorkers: nat, stagingPages: nat) {
    && |s.workers| == numWorkers && |s.jobs| <= |s.submitted|
    && s.jobs == s.submitted[Taken(s)..]
    && DeadIn(s.workers) == Unservable(s.submitted[..Taken(s)], stagingPages)
    && (Taken(s) > 0 ==> Unservable(s.submitted[..Taken(s) - 1], stagingPages) < numWorkers)
  }

  function Taken(s: State): nat {
    if |s.jobs| <= |s.submitted| then |s.submitted| - |s.jobs| else 0
  }

  lemma {:induction false} DeadUpdate(workers: seq<Phase>, w: nat, phase: Phase)
    requires w < |workers|
    ensures DeadIn(workers[w := phase]) + (if workers[w].Dead? then 1 else 0) == DeadIn(workers) + if phase.Dead? then 1 else 0
  {
    var n := |workers| - 1;
    if w < n {
      DeadUpdate(workers[..n], w, phase);
      assert workers[w := phase][..n] == workers[..n][w := phase];
    } else {
      assert workers[w := phase][..n] == workers[..n];
    }
  }

  lemma {:induction false} DeadBound(workers: seq<Phase>)
    ensures DeadIn(workers) <= |workers|
    ensures DeadIn(workers) == |workers| <==> forall w :: 0 <= w < |workers| ==> workers[w].Dead?
  {
    if workers != [] {
      var n := |workers| - 1;
      DeadBound(workers[..n]);
      assert forall w :: 0 <= w < n ==> workers[..n][w] == workers[w];
    }
  }

  lemma {:induction false} UnservableGrows(jobs: seq<Job>, i: nat, j: nat, stagingPages: nat)
    requires i <= j <= |jobs|
    ensures Unservable(jobs[..i], stagingPages) <= Unservable(jobs[..j], stagingPages)
    decreases j
  {
    if i < j {
      UnservableGrows(jobs, i, j - 1, stagingPages);
      assert jobs[..j][..j - 1] == jobs[..j - 1];
    }
  }

  lemma {:induction false} NobodyDead(workers: seq<Phase>)
    requires forall w :: 0 <= w < |workers| ==> workers[w].Idle?
    ensures DeadIn(workers) == 0
  {
    if workers != [] {
      NobodyDead(workers[..|workers| - 1]);
    }
  }

  lemma {:induction false} SubmitInOrder(s: State, prompt: seq<int>, numWorkers: nat, stagingPages: nat)
    requires InOrder(s, numWorkers, stagingPages)
    ensures InOrder(Step(s, Submit(prompt), stagingPages), numWorkers, stagingPages)
  {
    hide Unservable, DeadIn;
    var s' := Step(s, Submit(prompt), stagingPages);
    var t := Taken(s);
    assert Taken(s') == t;
    assert s'.submitted[..t] == s.submitted[..t] && s'.submitted[t..] == s'.jobs;
    assert t > 0 ==> s'.submitted[..t - 1] == s.submitted[..t - 1];
  }

  lemma {:induction false} TakeInOrder(s: State, w: nat, numWorkers: nat, stagingPages: nat)
    requires InOrder(s, numWorkers, stagingPages) && Enabled(s, Take(w))
    ensures InOrder(TakeStep(s, w, stagingPages), numWorkers, stagingPages)
  {
    hide DeadIn;
    var s', t, job := TakeStep(s, w, stagingPages), Taken(s), s.jobs[0];
    DeadUpdate(s.workers, w, s'.workers[w]);
    DeadBound(s.workers);
    assert s'.workers == s.workers[w := s'.workers[w]];
    assert Taken(s') == t + 1 && job == s.submitted[t];
    assert s'.submitted[..t + 1][..t] == s.submitted[..t];
    assert s'.submitted[t + 1..] == s.submitted[t..][1..];
  }

  lemma {:induction false} OtherInOrder(s: State, e: Event, numWorkers: nat, stagingPages: nat)
    requires InOrder(s, numWorkers, stagingPages) && Enabled(s, e) && !e.Submit? && !e.Take?
    ensures InOrder(Step(s, e, stagingPages), numWorkers, stagingPages)
  {
    hide Unservable, DeadIn;
    var s' := Step(s, e, stagingPages);
    var w := match e
      case Attempt(w, _) => w
      case Resume(w) => w
      case Install(i, _) => s.polled[i].worker
      case _ => 0;
    if w < |s.workers| {
      DeadUpdate(s.workers, w, s'.workers[w]);
      assert s'.workers == s.workers[w := s'.workers[w]];
    } else {
      assert s'.workers == s.workers;
    }
  }

  lemma {:induction false} RunsInOrder(numWorkers: nat, stagingPages: nat, states: seq<State>, events: seq<Event>)
    requires IsRun(numWorkers, stagingPages, states, events)
    ensures InOrder(states[|events|], numWorkers, stagingPages)
    decreases |events|
  {
    hide Step, Enabled, Unservable, DeadIn;
    if events == [] {
      NobodyDead(states[0].workers);
      assert Unservable([], stagingPages) == 0 by { UnservableNone(stagingPages); }
    } else {
      var n := |events| - 1;
      hide InOrder;
      RunsInOrder(numWorkers, stagingPages, states[..n + 1], events[..n]);
      if events[n].Submit? {
        SubmitInOrder(states[n], events[n].prompt, numWorkers, stagingPages);
      } else if events[n].Take? {
        TakeMeans(states[n], events[n].w, stagingPages);
        TakeInOrder(states[n], events[n].w, numWorkers, stagingPages);
      } else {
        OtherInOrder(states[n], events[n], numWorkers, stagingPages);
      }
    }
  }

  lemma {:induction false} UnservableNone(stagingPages: nat)
    ensures Unservable([], stagingPages) == 0
  {
  }

  lemma {:induction false} TakeMeans(s: State, w: nat, stagingPages: nat)
    requires Enabled(s, Take(w))
    ensures Step(s, Take(w), stagingPages) == TakeStep(s, w, stagingPages)
  {
  }

  // ---------- where runs end ----------

  /** Nothing happens any more unless a prompt is submitted. */
  ghost predicate Quiet(s: State) {
    forall e :: Enabled(s, e) ==> e.Submit?
  }

  lemma {:induction false} FirstPolledInstalls(s: State)
    requires HandOff(s)
    ensures s.polled != [] ==> Enabled(s, Install(0, false))
  {
    if s.polled != [] {
      assert Pending(s)[0] == s.polled[0];
      assert RecordOk(s, Pending(s)[0]);
    }
  }

  /** In a quiet state every worker is idle or dead, and all records are installed. */
  lemma {:induction false} QuietMeans(s: State, stagingPages: nat)
    requires Inv(s, stagingPages) && Quiet(s)
    ensures s.doneQueue == [] && s.polled == []
    ensures forall w :: 0 <= w < |s.workers| ==> s.workers[w].Dead? || (s.workers[w].Idle? && s.jobs == [])
  {
    hide Books, Phases;
    assert s.doneQueue == [] by { assert !Enabled(s, Poll); }
    FirstPolledInstalls(s);
    forall w | 0 <= w < |s.workers| ensures s.workers[w].Dead? || (s.workers[w].Idle? && s.jobs == []) {
      assert !Enabled(s, Take(w)) && !Enabled(s, Attempt(w, true)) && !Enabled(s, Resume(w));
      assert s.workers[w].Waiting? && !s.workers[w].released ==> HasRecord(s, w);
    }
  }

  /** A job in hand was taken, and in a quiet state it is with a dead worker. */
  lemma {:induction false} QuietHands(s: State, stagingPages: nat, job: Job)
    requires Inv(s, stagingPages) && Quiet(s) && job in InHand(s.workers)
    ensures !job.Servable(stagingPages)
  {
    QuietMeans(s, stagingPages);
    hide HandOff, Books, Quiet, InHand;
    var w := HeldBy(s.workers, job);
    assert PhaseOk(s.workers[w], stagingPages);
  }

  /** Queued jobs are those from the first one not taken. */
  lemma {:induction false} QueuedFrom(s: State, numWorkers: nat, stagingPages: nat, k: nat)
    requires InOrder(s, numWorkers, stagingPages) && Books(s) && k < |s.submitted|
    ensures multiset(s.jobs)[s.submitted[k]] == if k >= Taken(s) then 1 else 0
  {
    hide Unservable, DeadIn, Accounted;
    var t, job := Taken(s), s.submitted[k];
    DistinctOnce(s.jobs, job);
    if k >= t {
      assert s.jobs[k - t] == job;
    } else {
      assert job !in s.jobs;
    }
  }

  /** Every record, installed or not, is of a servable prompt. */
  ghost predicate Recorded(s: State, stagingPages: nat) {
    && (forall i :: 0 <= i < |s.doneQueue| ==> s.doneQueue[i].job.Servable(stagingPages))
    && (forall i :: 0 <= i < |s.polled| ==> s.polled[i].job.Servable(stagingPages))
    && (forall i :: 0 <= i < |s.installed| ==> s.installed[i].job.Servable(stagingPages))
  }

  lemma {:induction false} StepRecords(s: State, e: Event, stagingPages: nat)
    requires Phases(s, stagingPages) && Recorded(s, stagingPages) && Enabled(s, e)
    ensures Recorded(Step(s, e, stagingPages), stagingPages)
  {
    if e.Attempt? {
      assert PhaseOk(s.workers[e.w], stagingPages);
    }
  }

  lemma {:induction false} RunsRecord(numWorkers: nat, stagingPages: nat, states: seq<State>, events: seq<Event>)
    requires IsRun(numWorkers, stagingPages, states, events)
    ensures Recorded(states[|events|], stagingPages)
    decreases |events|
  {
    hide Step, Enabled, HandOff, Phases, Books;
    if events != [] {
      hide Recorded;
      var n := |events| - 1;
      RunsRecord(numWorkers, stagingPages, states[..n + 1], events[..n]);
      RunsKeepInv(numWorkers, stagingPages, states[..n + 1], events[..n]);
      StepRecords(states[n], events[n], stagingPages);
    }
  }

  lemma {:induction false} NoRecordOf(records: seq<Done>, job: Job, stagingPages: nat)
    requires !job.Servable(stagingPages) && forall i :: 0 <= i < |records| ==> records[i].job.Servable(stagingPages)
    ensures JobsOf(records)[job] == 0
  {
    if records != [] {
      NoRecordOf(records[1..], job, stagingPages);
    }
  }

  /** In a quiet state a job is installed once when it was taken and is servable, and never otherwise. */
  lemma {:induction false} QuietInstalled(s: State, numWorkers: nat, stagingPages: nat, k: nat)
    requires Inv(s, stagingPages) && InOrder(s, numWorkers, stagingPages) && Recorded(s, stagingPages) && Quiet(s)
    requires k < |s.submitted|
    ensures JobsOf(s.installed)[s.submitted[k]] == if k < Taken(s) && s.submitted[k].Servable(stagingPages) then 1 else 0
  {
    hide HandOff, InHand, JobsOf, Quiet, Unservable, DeadIn;
    var job := s.submitted[k];
    QuietMeans(s, stagingPages);
    PlacesOf(s, job);
    QueuedFrom(s, numWorkers, stagingPages, k);
    assert s.doneQueue + s.polled + s.installed == s.installed;
    if job.Servable(stagingPages) {
      if job in InHand(s.workers) {
        QuietHands(s, stagingPages, job);
      }
    } else {
      NoRecordOf(s.installed, job, stagingPages);
    }
  }

  /** In a quiet state a job was taken exactly when fewer unservable ones than workers came before it. */
  lemma {:induction false} QuietTaken(s: State, numWorkers: nat, stagingPages: nat, k: nat)
    requires Inv(s, stagingPages) && InOrder(s, numWorkers, stagingPages) && Quiet(s) && k < |s.submitted|
    ensures k < Taken(s) <==> Unservable(s.submitted[..k], stagingPages) < numWorkers
  {
    hide HandOff, Books, Phases, Unservable, DeadIn, Quiet;
    var t := Taken(s);
    if k < t {
      UnservableGrows(s.submitted, k, t - 1, stagingPages);
    } else {
      QuietMeans(s, stagingPages);
      DeadBound(s.workers);
      UnservableGrows(s.submitted, t, k, stagingPages);
    }
  }

  /**
   Which prompts are served, exactly: where a run cannot go on without a submission, a prompt
   has been installed once if it is servable and fewer unservable prompts than there are
   workers were submitted before it, and otherwise not at all.
   */
  lemma {:induction false} ServedExactly(numWorkers: nat, stagingPages: nat, states: seq<State>, events: seq<Event>, k: nat)
    requires IsRun(numWorkers, stagingPages, states, events) && Quiet(states[|events|])
    requires k < |states[|events|].submitted|
    ensures var s := states[|events|]; var job := s.submitted[k];
            JobsOf(s.installed)[job]
            == if job.Servable(stagingPages) && Unservable(s.submitted[..k], stagingPages) < numWorkers then 1 else 0
  {
    hide Inv, InOrder, Recorded, Quiet, JobsOf;
    RunsKeepInv(numWorkers, stagingPages, states, events);
    RunsInOrder(numWorkers, stagingPages, states, events);
    RunsRecord(numWorkers, stagingPages, states, events);
    QuietInstalled(states[|events|], numWorkers, stagingPages, k);
    QuietTaken(states[|events|], numWorkers, stagingPages, k);
  }

  /** A prompt of whole pages. */
  function Zeros(pages: nat): seq<int> { seq(pages * PAGE_TOKENS, _ => 0) }

  /**
   A starved prompt: one worker, a buffer of one page, a prompt of two pages and then one of
   one page. The first ends the worker, and the second, which fits, is never reported.
   */
  lemma {:induction false} OversizeStarves() returns (states: seq<State>, events: seq<Event>)
    ensures IsRun(1, 1, states, events) && Quiet(states[|events|])
    ensures var s := states[|events|];
            && |s.submitted| == 2 && s.submitted[1].Servable(1)
            && s.doneQueue == [] && s.polled == [] && s.installed == [] && s.jobs == [s.submitted[1]]
  {
    var big, small := Job(0, Zeros(2)), Job(1, Zeros(1));
    assert big.Pages() == 2 && small.Pages() == 1;
    events := [Submit(Zeros(2)), Submit(Zeros(1)), Take(0)];
    var s0 := Initial(1);
    var s1 := Step(s0, events[0], 1);
    var s2 := Step(s1, events[1], 1);
    assert s2.jobs == [big, small] && s2.workers == [Idle];
    var s3 := Step(s2, events[2], 1);
    assert s3.jobs == [small] && s3.workers == [Dead(big)];
    states := [s0, s1, s2, s3];
    forall k | 0 <= k < |events| ensures Enabled(states[k], events[k]) && states[k + 1] == Step(states[k], events[k], 1) {
      assert k == 0 || k == 1 || k == 2;
    }
  }

  // ---------- every run ends ----------

  function PhaseRank(phase: Phase): nat {
    match phase
    case Fetching(_, attempt) => if attempt < MAX_ATTEMPTS then 3 + MAX_ATTEMPTS - attempt else 3
    case Waiting(_, _) => 1
    case _ => 0
  }

  function WorkersRank(workers: seq<Phase>): nat {
    if workers == [] then 0 else WorkersRank(workers[..|workers| - 1]) + PhaseRank(workers[|workers| - 1])
  }

  /** The steps left: queued jobs, attempts, records and releases that are still to come. */
  function Rank(s: State): nat {
    7 * |s.jobs| + WorkersRank(s.workers) + 2 * |s.doneQueue| + |s.polled|
  }

  lemma {:induction false} RankUpdate(workers: seq<Phase>, w: nat, phase: Phase)
    requires w < |workers|
    ensures WorkersRank(workers[w := phase]) + PhaseRank(workers[w]) == WorkersRank(workers) + PhaseRank(phase)
  {
    var n := |workers| - 1;
    if w < n {
      RankUpdate(workers[..n], w, phase);
      assert workers[w := phase][..n] == workers[..n][w := phase];
    } else {
      assert workers[w := phase][..n] == workers[..n];
    }
  }

  lemma {:induction false} RankDrops(s: State, e: Event, stagingPages: nat)
    requires Phases(s, stagingPages) && Enabled(s, e) && !e.Submit?
    requires e.Install? ==> s.workers[s.polled[e.i].worker].Waiting?
    ensures Rank(Step(s, e, stagingPages)) < Rank(s)
  {
    hide WorkersRank;
    var s' := Step(s, e, stagingPages);
    var w := match e
      case Take(w) => w
      case Attempt(w, _) => w
      case Resume(w) => w
      case Install(i, _) => s.polled[i].worker
      case Poll => 0;
    if w < |s.workers| {
      assert PhaseOk(s.workers[w], stagingPages);
      RankUpdate(s.workers, w, s'.workers[w]);
      assert s'.workers == s.workers[w := s'.workers[w]];
    } else {
      assert s'.workers == s.workers;
    }
  }

  lemma {:induction false} InstalledIsWaiting(s: State, i: nat)
    requires HandOff(s) && i < |s.polled|
    ensures s.polled[i].worker < |s.workers| && s.workers[s.polled[i].worker].Waiting?
  {
    assert Pending(s)[i] == s.polled[i];
    assert RecordOk(s, Pending(s)[i]);
  }

  /** Without submissions every run ends: from its state m on, at most the rank of that state in steps. */
  lemma {:induction false} RunsEnd(numWorkers: nat, stagingPages: nat, states: seq<State>, events: seq<Event>, m: nat)
    requires IsRun(numWorkers, stagingPages, states, events) && m <= |events|
    requires forall k :: m <= k < |events| ==> !events[k].Submit?
    ensures |events| - m + Rank(states[|events|]) <= Rank(states[m])
    decreases |events|
  {
    hide Step, Enabled, HandOff, Phases, Books, Rank;
    if m < |events| {
      var n := |events| - 1;
      RunsEnd(numWorkers, stagingPages, states[..n + 1], events[..n], m);
      RunsKeepInv(numWorkers, stagingPages, states[..n + 1], events[..n]);
      if events[n].Install? {
        InstallMeans(states[n], events[n].i, events[n].raised);
        InstalledIsWaiting(states[n], events[n].i);
      }
      RankDrops(states[n], events[n], stagingPages);
    }
  }

  lemma {:induction false} InstallMeans(s: State, i: nat, raised: bool)
    requires Enabled(s, Install(i, raised))
    ensures i < |s.polled|
  {
  }
}

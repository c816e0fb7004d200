/**
 What the records and the counters of the loader tell. Over every run a record says that the
 fetch succeeded exactly if one of the job's reads was complete, a fetch is given up only
 after three incomplete reads, the engine gets the records in the order they were reported,
 and `loaded` counts the installations that succeeded.
 */
module KvOutcomes {
  import opened Wrappers
  import opened Counting
  import opened KvHandoff
  import KvPages

  /** The event is a read for `job`, complete or not. */
  predicate Reads(s: State, e: Event, job: Job, complete: bool) {
    e.Attempt? && e.complete == complete && e.w < |s.workers| && s.workers[e.w].Fetching? && s.workers[e.w].job == job
  }

  /** How many of the first n events were complete, or incomplete, reads for `job`. */
  function NumReads(states: seq<State>, events: seq<Event>, n: nat, job: Job, complete: bool): nat
    requires n <= |events| && n < |states|
  {
    if n == 0 then 0
    else NumReads(states, events, n - 1, job, complete) + if Reads(states[n - 1], events[n - 1], job, complete) then 1 else 0
  }

  /** Records on their way to the engine, with the engine, and installed. */
  predicate HasBeenReported(s: State, d: Done) {
    d in s.doneQueue || d in s.polled || d in s.installed
  }

  // ---------- what the reads so far mean ----------

  ghost predicate PhaseAgrees(phase: Phase, job: Job, good: nat, bad: nat) {
    match phase
    case Fetching(j, attempt) => j == job ==> good == 0 && bad == attempt
    case Dead(j) => j == job ==> good == 0 && bad == 0
    case _ => true
  }

  ghost predicate RecordAgrees(d: Done, job: Job, good: nat, bad: nat) {
    d.job == job ==>
      if job.Pages() == 0 then d.ok && good == 0 && bad == 0
      else if d.ok then good == 1 && bad < MAX_ATTEMPTS
      else good == 0 && bad == MAX_ATTEMPTS
  }

  /** `good` complete and `bad` incomplete reads of `job` agree with wherever the job is. */
  ghost predicate Agrees(s: State, job: Job, good: nat, bad: nat) {
    && (job !in s.submitted || job in s.jobs ==> good == 0 && bad == 0)
    && (forall w :: 0 <= w < |s.workers| ==> PhaseAgrees(s.workers[w], job, good, bad))
    && (forall d :: HasBeenReported(s, d) ==> RecordAgrees(d, job, good, bad))
  }

  lemma {:induction false} InHandHas(workers: seq<Phase>, w: nat, job: Job)
    requires w < |workers| && job in InHandOf(workers[w])
    ensures job in InHand(workers)
  {
    if w > 0 {
      InHandHas(workers[1..], w - 1, job);
    }
  }

  /** A job that is being fetched is nowhere else. */
  lemma {:induction false} OnlyInHand(s: State, w: nat, job: Job)
    requires Books(s) && w < |s.workers| && s.workers[w].Fetching? && s.workers[w].job == job
    ensures job in s.submitted && job !in s.jobs
    ensures forall v :: 0 <= v < |s.workers| && v != w ==> job !in InHandOf(s.workers[v])
    ensures forall d :: HasBeenReported(s, d) ==> d.job != job
  {
    hide InHand, JobsOf;
    InHandUpdate(s.workers, w, Idle);
    InHandHas(s.workers, w, job);
    OnceSubmitted(s, job);
    assert job in Accounted(s);
    assert InHand(s.workers)[job] == InHand(s.workers[w := Idle])[job] + 1 by {
      assert (InHand(s.workers[w := Idle]) + InHandOf(s.workers[w]))[job] == (InHand(s.workers) + InHandOf(Idle))[job];
    }
    forall v | 0 <= v < |s.workers| && v != w ensures job !in InHandOf(s.workers[v]) {
      if job in InHandOf(s.workers[v]) {
        InHandHas(s.workers[w := Idle], v, job);
      }
    }
    forall d | HasBeenReported(s, d) ensures d.job != job {
      ReportedIsAccounted(s, d);
    }
  }

  lemma {:induction false} ReportedIsAccounted(s: State, d: Done)
    requires HasBeenReported(s, d)
    ensures d.job in JobsOf(s.doneQueue) + JobsOf(s.polled) + JobsOf(s.installed)
  {
    hide JobsOf;
    if k :| 0 <= k < |s.doneQueue| && s.doneQueue[k] == d {
      JobInRecords(s.doneQueue, k);
    } else if k :| 0 <= k < |s.polled| && s.polled[k] == d {
      JobInRecords(s.polled, k);
    } else {
      var k :| 0 <= k < |s.installed| && s.installed[k] == d;
      JobInRecords(s.installed, k);
    }
  }

  lemma {:induction false} AttemptAgrees(s: State, w: nat, complete: bool, job: Job, good: nat, bad: nat, stagingPages: nat)
    requires Inv(s, stagingPages) && Enabled(s, Attempt(w, complete)) && Agrees(s, job, good, bad)
    requires s.workers[w].job.Pages() > 0
    ensures var s' := AttemptStep(s, w, complete);
            if s.workers[w].job != job then Agrees(s', job, good, bad)
            else if complete then Agrees(s', job, good + 1, bad) else Agrees(s', job, good, bad + 1)
  {
    hide HandOff, Accounted;
    var s' := AttemptStep(s, w, complete);
    assert PhaseOk(s.workers[w], stagingPages) && PhaseAgrees(s.workers[w], job, good, bad);
    OnlyInHand(s, w, s.workers[w].job);
    forall d ensures HasBeenReported(s', d) ==> HasBeenReported(s, d) || d == Done(s.workers[w].job, w, complete) {
    }
  }

  lemma {:induction false} TakeAgrees(s: State, w: nat, job: Job, good: nat, bad: nat, stagingPages: nat)
    requires Enabled(s, Take(w)) && Agrees(s, job, good, bad)
    ensures Agrees(TakeStep(s, w, stagingPages), job, good, bad)
  {
    var s' := TakeStep(s, w, stagingPages);
    forall d ensures HasBeenReported(s', d) ==> HasBeenReported(s, d) || (d == Done(s.jobs[0], w, true) && s.jobs[0].Pages() == 0) {
    }
  }

  lemma {:induction false} OthersAgree(s: State, e: Event, job: Job, good: nat, bad: nat, stagingPages: nat)
    requires Inv(s, stagingPages) && Enabled(s, e) && !e.Attempt? && !e.Take? && Agrees(s, job, good, bad)
    ensures Agrees(Step(s, e, stagingPages), job, good, bad)
  {
    hide HandOff, Accounted, PhaseAgrees, RecordAgrees;
    var s' := Step(s, e, stagingPages);
    forall d ensures HasBeenReported(s', d) ==> HasBeenReported(s, d) {
    }
    forall w | 0 <= w < |s'.workers| ensures PhaseAgrees(s'.workers[w], job, good, bad) {
      if s'.workers[w] != s.workers[w] {
        FreeAgrees(s'.workers[w], job, good, bad);
      }
    }
  }

  lemma {:induction false} FreeAgrees(phase: Phase, job: Job, good: nat, bad: nat)
    requires !phase.Fetching? && !phase.Dead?
    ensures PhaseAgrees(phase, job, good, bad)
  {
  }

  /** Whoever fetches has something to fetch. */
  ghost predicate FetchesPages(s: State) {
    forall w :: 0 <= w < |s.workers| && s.workers[w].Fetching? ==> s.workers[w].job.Pages() > 0
  }

  lemma {:induction false} RunsFetchPages(numWorkers: nat, stagingPages: nat, states: seq<State>, events: seq<Event>, n: nat)
    requires IsRun(numWorkers, stagingPages, states, events) && n <= |events|
    ensures FetchesPages(states[n])
  {
    if n > 0 {
      RunsFetchPages(numWorkers, stagingPages, states, events, n - 1);
      assert states[n] == Step(states[n - 1], events[n - 1], stagingPages);
    }
  }

  lemma {:induction false} InvAt(numWorkers: nat, stagingPages: nat, states: seq<State>, events: seq<Event>, n: nat)
    requires IsRun(numWorkers, stagingPages, states, events) && n <= |events|
    ensures Inv(states[n], stagingPages)
  {
    hide Inv, Step, Enabled;
    RunsKeepInv(numWorkers, stagingPages, states[..n + 1], events[..n]);
  }

  lemma {:induction false} StepAgrees(s: State, e: Event, job: Job, good: nat, bad: nat, stagingPages: nat)
    requires Inv(s, stagingPages) && Enabled(s, e) && Agrees(s, job, good, bad) && FetchesPages(s)
    ensures Agrees(Step(s, e, stagingPages), job,
                   good + (if Reads(s, e, job, true) then 1 else 0), bad + if Reads(s, e, job, false) then 1 else 0)
  {
    hide Agrees, Inv, AttemptStep, TakeStep, InstallStep;
    match e
    case Attempt(w, complete) => AttemptAgrees(s, w, complete, job, good, bad, stagingPages);
    case Take(w) => TakeAgrees(s, w, job, good, bad, stagingPages);
    case _ => OthersAgree(s, e, job, good, bad, stagingPages);
  }

  lemma {:induction false} RunsAgree(numWorkers: nat, stagingPages: nat, states: seq<State>, events: seq<Event>, n: nat, job: Job)
    requires IsRun(numWorkers, stagingPages, states, events) && n <= |events|
    ensures Agrees(states[n], job, NumReads(states, events, n, job, true), NumReads(states, events, n, job, false))
  {
    hide Inv, Step, Enabled, Reads, FetchesPages;
    if n > 0 {
      RunsAgree(numWorkers, stagingPages, states, events, n - 1, job);
      RunsFetchPages(numWorkers, stagingPages, states, events, n - 1);
      InvAt(numWorkers, stagingPages, states, events, n - 1);
      hide Agrees;
      StepAgrees(states[n - 1], events[n - 1], job, NumReads(states, events, n - 1, job, true),
                 NumReads(states, events, n - 1, job, false), stagingPages);
    }
  }

  /**
   Over every run: a record of a job with pages is a success exactly if one of the job's reads
   was complete, and a failure exactly if three were made and none was. A job without pages is
   a success without a read.
   */
  lemma {:induction false} RecordsTellTheReads(numWorkers: nat, stagingPages: nat, states: seq<State>, events: seq<Event>, d: Done)
    requires IsRun(numWorkers, stagingPages, states, events) && HasBeenReported(states[|events|], d)
    ensures var good, bad := NumReads(states, events, |events|, d.job, true), NumReads(states, events, |events|, d.job, false);
            && (d.job.Pages() > 0 ==>
                  && (d.ok <==> good > 0) && good <= 1
                  && (!d.ok <==> bad == MAX_ATTEMPTS) && bad <= MAX_ATTEMPTS)
            && (d.job.Pages() == 0 ==> d.ok && good == 0 && bad == 0)
  {
    RunsAgree(numWorkers, stagingPages, states, events, |events|, d.job);
    var good, bad := NumReads(states, events, |events|, d.job, true), NumReads(states, events, |events|, d.job, false);
    assert RecordAgrees(d, d.job, good, bad);
  }

  /** Four bytes hold the token id. */
  ghost predicate FitsFourBytes(t: int) {
    exists b: seq<KvPages.Byte> :: |b| == 4 && KvPages.Value(b) == t
  }

  /** A prompt can be addressed exactly if four bytes hold each token id of its full pages. */
  lemma {:induction false} PackableMeans(job: Job)
    ensures job.Packable() <==> forall i :: 0 <= i < job.Pages() * PAGE_TOKENS ==> FitsFourBytes(job.prompt[i])
  {
    forall i | 0 <= i < job.Pages() * PAGE_TOKENS
      ensures 0 <= job.prompt[i] < 0x1_0000_0000 <==> FitsFourBytes(job.prompt[i])
    {
      FourBytes(job.prompt[i]);
    }
  }

  /** A prompt is served exactly if it has no full page, or its full pages fit the buffer and can be addressed. */
  lemma {:induction false} ServableMeans(job: Job, stagingPages: nat)
    ensures var n := |job.prompt|;
            job.Servable(stagingPages) <==>
              || n < PAGE_TOKENS
              || (n < (stagingPages + 1) * PAGE_TOKENS && forall i :: 0 <= i < n - n % PAGE_TOKENS ==> FitsFourBytes(job.prompt[i]))
  {
    hide FitsFourBytes;
    PackableMeans(job);
    assert job.Pages() * PAGE_TOKENS == |job.prompt| - |job.prompt| % PAGE_TOKENS;
  }

  lemma {:induction false} FourBytes(t: int)
    ensures 0 <= t < 0x1_0000_0000 <==> FitsFourBytes(t)
  {
    if 0 <= t < 0x1_0000_0000 {
      KvPages.PackedToken(t);
      assert KvPages.Value(KvPages.PackToken(t)) == t;
    }
  }

  // ---------- the order of the records ----------

  /** What one event adds at the end of a log. */
  function Gained(before: seq<Done>, after: seq<Done>): seq<Done> {
    if |after| > |before| then after[|before|..] else []
  }

  /** All records reported in the first n steps, in order. */
  function ReportLog(states: seq<State>, n: nat): seq<Done>
    requires n < |states|
  {
    if n == 0 then [] else ReportLog(states, n - 1) + Gained(states[n - 1].doneQueue, states[n].doneQueue)
  }

  /** All records the engine got in the first n steps, in order. */
  function PollLog(states: seq<State>, n: nat): seq<Done>
    requires n < |states|
  {
    if n == 0 then [] else PollLog(states, n - 1) + Gained(states[n - 1].polled, states[n].polled)
  }

  /** The engine gets the records in the order in which they were reported, and none is lost on the way. */
  lemma {:induction false} PolledInOrder(numWorkers: nat, stagingPages: nat, states: seq<State>, events: seq<Event>, n: nat)
    requires IsRun(numWorkers, stagingPages, states, events) && n <= |events|
    ensures ReportLog(states, n) == PollLog(states, n) + states[n].doneQueue
  {
    if n > 0 {
      PolledInOrder(numWorkers, stagingPages, states, events, n - 1);
      var s, e, s' := states[n - 1], events[n - 1], states[n];
      assert Enabled(s, e) && s' == Step(s, e, stagingPages);
      hide IsRun, ReportLog, PollLog;
      QueueMoves(s, e, s', stagingPages, PollLog(states, n - 1));
      assert ReportLog(states, n - 1) + Gained(s.doneQueue, s'.doneQueue)
          == PollLog(states, n - 1) + s.doneQueue + Gained(s.doneQueue, s'.doneQueue);
    }
  }

  lemma {:induction false} QueueMoves(s: State, e: Event, s': State, stagingPages: nat, log: seq<Done>)
    requires Enabled(s, e) && s' == Step(s, e, stagingPages)
    ensures log + s.doneQueue + Gained(s.doneQueue, s'.doneQueue) == log + Gained(s.polled, s'.polled) + s'.doneQueue
  {
    if e.Poll? {
      assert s.doneQueue == [s.doneQueue[0]] + s.doneQueue[1..];
      assert Gained(s.polled, s'.polled) == [s.doneQueue[0]];
    } else {
      assert Gained(s.polled, s'.polled) == [];
      assert s'.doneQueue == s.doneQueue + Gained(s.doneQueue, s'.doneQueue);
    }
  }

  // ---------- the engine hands buffers back ----------

  /** An installation wakes the record's worker and no other, whatever happens in it, and leaves every buffer as it is. */
  lemma {:induction false} InstallReleases(s: State, i: nat, raised: bool, stagingPages: nat)
    requires Inv(s, stagingPages) && Enabled(s, Install(i, raised))
    ensures var d, s' := s.polled[i], Step(s, Install(i, raised), stagingPages);
            && s.workers[d.worker] == Waiting(d.job, false) && s'.workers[d.worker] == Waiting(d.job, true)
            && (forall w :: 0 <= w < |s.workers| && w != d.worker ==> s'.workers[w] == s.workers[w])
            && s'.staging == s.staging && s'.jobs == s.jobs && s'.doneQueue == s.doneQueue
  {
    assert RecordOk(s, Pending(s)[i]);
  }

  // ---------- the counters ----------

  /** The event installs a record, which is a success only if the record is one and nothing raises. */
  predicate Installs(s: State, e: Event, good: bool) {
    e.Install? && e.i < |s.polled| && (good <==> s.polled[e.i].ok && !e.raised)
  }

  function NumInstalls(states: seq<State>, events: seq<Event>, n: nat, good: bool): nat
    requires n <= |events| && n < |states|
  {
    if n == 0 then 0
    else NumInstalls(states, events, n - 1, good) + if Installs(states[n - 1], events[n - 1], good) then 1 else 0
  }

  /** `loaded` counts the installations of successful records that did not raise, `rejected` all others. */
  lemma {:induction false} CountersTellTheInstalls(numWorkers: nat, stagingPages: nat, states: seq<State>, events: seq<Event>, n: nat)
    requires IsRun(numWorkers, stagingPages, states, events) && n <= |events|
    ensures states[n].loaded == NumInstalls(states, events, n, true)
    ensures states[n].rejected == NumInstalls(states, events, n, false)
  {
    if n > 0 {
      CountersTellTheInstalls(numWorkers, stagingPages, states, events, n - 1);
      assert Enabled(states[n - 1], events[n - 1]) && states[n] == Step(states[n - 1], events[n - 1], stagingPages);
    }
  }
}

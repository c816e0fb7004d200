/**
 The hand-off of staging buffers between fetch workers and the engine: a worker takes a job,
 fills its own buffer, queues a done record and sleeps until the engine has installed from
 that buffer. For every interleaving of any number of workers with the engine, an engine
 that installs a record finds in the buffer the pages of that record's job, no job is
 reported twice, and the two counters account for every installation.
 */
module KvHandoff {
  import opened Wrappers
  import opened Counting

  const PAGE_TOKENS: nat := 16
  const MAX_ATTEMPTS: nat := 3

  /** A submitted prompt; `id` is the position of its submission. */
  datatype Job = Job(id: nat, prompt: seq<int>)
  {
    function Pages(): nat { |prompt| / PAGE_TOKENS }

    /** The token ids of all full pages pack into 32 bits. */
    predicate Packable() {
      forall i :: 0 <= i < Pages() * PAGE_TOKENS ==> 0 <= prompt[i] < 0x1_0000_0000
    }

    /** There is nothing to fetch, or the pages fit the buffer and have addresses. */
    predicate Servable(stagingPages: nat) {
      Pages() == 0 || (Pages() <= stagingPages && Packable())
    }
  }

  datatype Done = Done(job: Job, worker: nat, ok: bool)

  /** `Fetching` may write the worker's buffer; `Waiting` may not; a prompt that does not fit or does not pack ends the thread. */
  datatype Phase =
    | Idle
    | Fetching(job: Job, attempt: nat)
    | Waiting(job: Job, released: bool)
    | Dead(job: Job)

  datatype State = State(
    submitted: seq<Job>,
    jobs: seq<Job>,
    workers: seq<Phase>,
    staging: seq<Option<Job>>,   // whose pages a buffer holds completely; None while it is unset or partly written
    doneQueue: seq<Done>,
    polled: seq<Done>,           // records the engine holds and has not installed
    installed: seq<Done>,
    loaded: nat,
    rejected: nat)

  datatype Event =
    | Submit(prompt: seq<int>)
    | Take(w: nat)
    | Attempt(w: nat, complete: bool)   // one batched read: all objects arrived, or some failed or it raised
    | Poll
    | Install(i: nat, raised: bool)     // the engine installs record i of those it holds
    | Resume(w: nat)

  function Initial(numWorkers: nat): State {
    State([], [], seq(numWorkers, _ => Idle), seq(numWorkers, _ => None), [], [], [], 0, 0)
  }

  predicate Enabled(s: State, e: Event) {
    match e
    case Submit(_) => true
    case Take(w) => w < |s.workers| && s.workers[w].Idle? && s.jobs != []
    case Attempt(w, _) => w < |s.workers| && w < |s.staging| && s.workers[w].Fetching?
    case Poll => s.doneQueue != []
    case Install(i, _) => i < |s.polled| && s.polled[i].worker < |s.workers|
    case Resume(w) => w < |s.workers| && s.workers[w].Waiting? && s.workers[w].released
  }

  function Report(s: State, w: nat, job: Job, ok: bool): State
    requires w < |s.workers|
  {
    s.(workers := s.workers[w := Waiting(job, false)], doneQueue := s.doneQueue + [Done(job, w, ok)])
  }

  /** A worker takes the oldest job: nothing to fetch, a raise outside the retry loop, or a fetch. */
  function TakeStep(s: State, w: nat, stagingPages: nat): State
    requires Enabled(s, Take(w))
  {
    var job := s.jobs[0];
    var rest := s.(jobs := s.jobs[1..]);
    if job.Pages() == 0 then Report(rest, w, job, true)
    else if !job.Servable(stagingPages) then rest.(workers := s.workers[w := Dead(job)])
    else rest.(workers := s.workers[w := Fetching(job, 0)])
  }

  /** One of at most three reads into the worker's own buffer. */
  function AttemptStep(s: State, w: nat, complete: bool): State
    requires Enabled(s, Attempt(w, complete))
  {
    var Fetching(job, attempt) := s.workers[w];
    var written := s.(staging := s.staging[w := if complete then Some(job) else None]);
    if complete then Report(written, w, job, true)
    else if attempt + 1 >= MAX_ATTEMPTS then Report(written, w, job, false)
    else written.(workers := s.workers[w := Fetching(job, attempt + 1)])
  }

  /** Installation always hands the buffer back, whatever happens in it. */
  function InstallStep(s: State, i: nat, raised: bool): State
    requires Enabled(s, Install(i, raised))
  {
    var done := s.polled[i];
    var good := done.ok && !raised;
    var phase := s.workers[done.worker];
    s.(polled := s.polled[..i] + s.polled[i + 1..],
       installed := s.installed + [done],
       loaded := s.loaded + (if good then 1 else 0),
       rejected := s.rejected + (if good then 0 else 1),
       workers := if phase.Waiting? then s.workers[done.worker := Waiting(phase.job, true)] else s.workers)
  }

  function Step(s: State, e: Event, stagingPages: nat): State
    requires Enabled(s, e)
  {
    match e
    case Submit(n) =>
      var job := Job(|s.submitted|, n);
      s.(submitted := s.submitted + [job], jobs := s.jobs + [job])
    case Take(w) => TakeStep(s, w, stagingPages)
    case Attempt(w, complete) => AttemptStep(s, w, complete)
    case Poll => s.(doneQueue := s.doneQueue[1..], polled := s.polled + [s.doneQueue[0]])
    case Install(i, raised) => InstallStep(s, i, raised)
    case Resume(w) => s.(workers := s.workers[w := Idle])
  }

  // ---------- the invariant ----------

  /** Records not yet installed, oldest part with the engine. */
  function Pending(s: State): seq<Done> {
    s.polled + s.doneQueue
  }

  ghost predicate RecordOk(s: State, d: Done) {
    && d.worker < |s.workers| && d.worker < |s.staging|
    && s.workers[d.worker] == Waiting(d.job, false)
    && (d.ok && d.job.Pages() > 0 ==> s.staging[d.worker] == Some(d.job))
  }

  /** Each record not yet installed belongs to a waiting worker of its own, whose buffer holds the record's pages. */
  ghost predicate HandOff(s: State) {
    && |s.workers| == |s.staging|
    && (forall i :: 0 <= i < |Pending(s)| ==> RecordOk(s, Pending(s)[i]))
    && (forall i, j :: 0 <= i < j < |Pending(s)| ==> Pending(s)[i].worker != Pending(s)[j].worker)
    && (forall w :: 0 <= w < |s.workers| && s.workers[w].Waiting? && !s.workers[w].released ==> HasRecord(s, w))
  }

  ghost predicate PhaseOk(phase: Phase, stagingPages: nat) {
    match phase
    case Fetching(job, attempt) => job.Servable(stagingPages) && attempt < MAX_ATTEMPTS
    case Dead(job) => !job.Servable(stagingPages)
    case _ => true
  }

  ghost predicate Phases(s: State, stagingPages: nat) {
    forall w :: 0 <= w < |s.workers| ==> PhaseOk(s.workers[w], stagingPages)
  }

  /** Every job is in one place, ids are unique, and every installation bumped one counter. */
  ghost predicate Books(s: State) {
    && multiset(s.submitted) == Accounted(s)
    && (forall i :: 0 <= i < |s.submitted| ==> s.submitted[i].id == i)
    && s.loaded + s.rejected == |s.installed|
  }

  ghost predicate Inv(s: State, stagingPages: nat) {
    HandOff(s) && Phases(s, stagingPages) && Books(s)
  }

  ghost predicate HasRecord(s: State, w: nat) {
    exists i :: 0 <= i < |Pending(s)| && Pending(s)[i].worker == w
  }

  /** Where a job can be: queued, being fetched, lost with a dead worker, or reported in exactly one record. */
  ghost function Accounted(s: State): multiset<Job> {
    multiset(s.jobs) + InHand(s.workers) + JobsOf(s.doneQueue) + JobsOf(s.polled) + JobsOf(s.installed)
  }

  ghost function JobsOf(records: seq<Done>): multiset<Job> {
    if records == [] then multiset{} else multiset{records[0].job} + JobsOf(records[1..])
  }

  ghost function InHandOf(phase: Phase): multiset<Job> {
    match phase
    case Fetching(job, _) => multiset{job}
    case Dead(job) => multiset{job}
    case _ => multiset{}
  }

  ghost function InHand(workers: seq<Phase>): multiset<Job> {
    if workers == [] then multiset{} else InHandOf(workers[0]) + InHand(workers[1..])
  }

  lemma {:induction false} JobsOfConcat(a: seq<Done>, b: seq<Done>)
    ensures JobsOf(a + b) == JobsOf(a) + JobsOf(b)
  {
    if a == [] {
      assert a + b == b;
    } else {
      assert (a + b)[1..] == a[1..] + b;
      JobsOfConcat(a[1..], b);
    }
  }

  lemma {:induction false} OneRecord(d: Done)
    ensures JobsOf([d]) == multiset{d.job}
  {
    var one := [d];
    assert one[1..] == [];
  }

  lemma {:induction false} InHandUpdate(workers: seq<Phase>, w: nat, phase: Phase)
    requires w < |workers|
    ensures InHand(workers[w := phase]) + InHandOf(workers[w]) == InHand(workers) + InHandOf(phase)
  {
    var workers' := workers[w := phase];
    if w == 0 {
      assert workers'[1..] == workers[1..];
    } else {
      assert workers'[1..] == workers[1..][w - 1 := phase];
      InHandUpdate(workers[1..], w - 1, phase);
      AddLeft(InHandOf(workers[0]), InHand(workers'[1..]), InHandOf(workers[w]), InHand(workers[1..]), InHandOf(phase));
    }
  }

  lemma {:induction false} RemoveRecord(records: seq<Done>, i: nat)
    requires i < |records|
    ensures JobsOf(records) == JobsOf(records[..i] + records[i + 1..]) + multiset{records[i].job}
  {
    assert records == records[..i] + records[i..];
    assert records[i..] == [records[i]] + records[i + 1..];
    JobsOfConcat(records[..i], records[i..]);
    JobsOfConcat([records[i]], records[i + 1..]);
    JobsOfConcat(records[..i], records[i + 1..]);
    OneRecord(records[i]);
  }

  // ---------- each event keeps it ----------

  lemma {:induction false} InitialInv(numWorkers: nat, stagingPages: nat)
    ensures Inv(Initial(numWorkers), stagingPages)
  {
    NothingInHand(Initial(numWorkers).workers);
  }

  lemma {:induction false} NothingInHand(workers: seq<Phase>)
    requires forall w :: 0 <= w < |workers| ==> workers[w].Idle?
    ensures InHand(workers) == multiset{}
  {
    if workers != [] {
      NothingInHand(workers[1..]);
    }
  }

  lemma {:induction false} ReportKeeps(s: State, w: nat, job: Job, ok: bool)
    requires |s.workers| == |s.staging| && w < |s.workers| && (ok && job.Pages() > 0 ==> s.staging[w] == Some(job))
    requires forall i :: 0 <= i < |Pending(s)| ==> RecordOk(s, Pending(s)[i]) && Pending(s)[i].worker != w
    requires forall i, j :: 0 <= i < j < |Pending(s)| ==> Pending(s)[i].worker != Pending(s)[j].worker
    requires forall v :: 0 <= v < |s.workers| && v != w && s.workers[v].Waiting? && !s.workers[v].released ==> HasRecord(s, v)
    ensures HandOff(Report(s, w, job, ok))
  {
    var s' := Report(s, w, job, ok);
    assert Pending(s') == Pending(s) + [Done(job, w, ok)];
    forall i | 0 <= i < |Pending(s')| ensures RecordOk(s', Pending(s')[i]) {
      if i < |Pending(s)| {
        assert RecordOk(s, Pending(s)[i]);
      }
    }
    forall v | 0 <= v < |s'.workers| && s'.workers[v].Waiting? && !s'.workers[v].released ensures HasRecord(s', v) {
      if v == w {
        assert Pending(s')[|Pending(s)|].worker == w;
      } else {
        assert HasRecord(s, v);
        var i :| 0 <= i < |Pending(s)| && Pending(s)[i].worker == v;
        assert Pending(s')[i].worker == v;
      }
    }
  }

  /** A worker without a record changes phase, and perhaps its buffer: no record is affected. */
  lemma {:induction false} WorkerMoves(s: State, w: nat, phase: Phase, buffer: Option<Job>)
    requires HandOff(s) && w < |s.workers| && !(phase.Waiting? && !phase.released)
    requires !(s.workers[w].Waiting? && !s.workers[w].released)
    ensures var s' := s.(workers := s.workers[w := phase], staging := s.staging[w := buffer]);
            HandOff(s') && Pending(s') == Pending(s) && forall i :: 0 <= i < |Pending(s)| ==> Pending(s)[i].worker != w
  {
    var s' := s.(workers := s.workers[w := phase], staging := s.staging[w := buffer]);
    assert Pending(s') == Pending(s);
    forall i | 0 <= i < |Pending(s)| ensures RecordOk(s', Pending(s)[i]) && Pending(s)[i].worker != w {
      assert RecordOk(s, Pending(s)[i]);
    }
    forall v | 0 <= v < |s'.workers| && s'.workers[v].Waiting? && !s'.workers[v].released ensures HasRecord(s', v) {
      assert HasRecord(s, v);
      var i :| 0 <= i < |Pending(s)| && Pending(s)[i].worker == v;
      assert Pending(s')[i].worker == v;
    }
  }

  lemma {:induction false} SameHandOff(s: State, s': State)
    requires HandOff(s) && s'.workers == s.workers && s'.staging == s.staging && Pending(s') == Pending(s)
    ensures HandOff(s')
  {
    forall i | 0 <= i < |Pending(s')| ensures RecordOk(s', Pending(s')[i]) {
      assert RecordOk(s, Pending(s)[i]);
    }
    forall w | 0 <= w < |s.workers| && s.workers[w].Waiting? && !s.workers[w].released ensures HasRecord(s', w) {
      assert HasRecord(s, w);
      var i :| 0 <= i < |Pending(s)| && Pending(s)[i].worker == w;
      assert Pending(s')[i].worker == w;
    }
  }

  /** A job moves between a worker's hand, the queue of jobs and the done queue without getting lost. */
  lemma {:induction false} HandMoves(s: State, s': State, w: nat, job: Job, taken: bool, reported: seq<Done>)
    requires w < |s.workers| == |s'.workers| && s'.workers == s.workers[w := s'.workers[w]]
    requires taken ==> s.jobs != [] && s.jobs[0] == job && s'.jobs == s.jobs[1..]
    requires !taken ==> s'.jobs == s.jobs && InHandOf(s.workers[w]) == multiset{job}
    requires taken ==> InHandOf(s.workers[w]) == multiset{}
    requires s'.doneQueue == s.doneQueue + reported && s'.polled == s.polled && s'.installed == s.installed
    requires InHandOf(s'.workers[w]) + JobsOf(reported) == multiset{job}
    ensures Accounted(s') == Accounted(s)
  {
    hide InHand, JobsOf, InHandOf;
    InHandUpdate(s.workers, w, s'.workers[w]);
    JobsOfConcat(s.doneQueue, reported);
    if taken {
      assert s.jobs == [job] + s.jobs[1..];
    }
    forall j: Job ensures Accounted(s')[j] == Accounted(s)[j] {
      assert (InHand(s'.workers) + InHandOf(s.workers[w]))[j] == (InHand(s.workers) + InHandOf(s'.workers[w]))[j];
      assert (InHandOf(s'.workers[w]) + JobsOf(reported))[j] == multiset{job}[j];
    }
  }

  lemma {:induction false} TakeHandOff(s: State, w: nat, stagingPages: nat)
    requires HandOff(s) && Enabled(s, Take(w))
    ensures HandOff(TakeStep(s, w, stagingPages))
  {
    hide RecordOk, HasRecord, HandOff;
    var job, rest, s' := s.jobs[0], s.(jobs := s.jobs[1..]), TakeStep(s, w, stagingPages);
    SameHandOff(s, rest);
    WorkerMoves(rest, w, if s'.workers[w].Waiting? then Idle else s'.workers[w], s.staging[w]);
    assert s.staging[w := s.staging[w]] == s.staging && s.workers[w := Idle] == s.workers;
    if job.Pages() == 0 {
      FreeWorkerReports(rest, w, job, true);
    }
  }

  lemma {:induction false} FreeWorkerReports(s: State, w: nat, job: Job, ok: bool)
    requires HandOff(s) && w < |s.workers| && !s.workers[w].Waiting? && (ok && job.Pages() > 0 ==> s.staging[w] == Some(job))
    ensures HandOff(Report(s, w, job, ok))
  {
    forall i | 0 <= i < |Pending(s)| ensures RecordOk(s, Pending(s)[i]) && Pending(s)[i].worker != w {
      assert RecordOk(s, Pending(s)[i]);
    }
    ReportKeeps(s, w, job, ok);
  }

  lemma {:induction false} TakeKeeps(s: State, w: nat, stagingPages: nat)
    requires Inv(s, stagingPages) && Enabled(s, Take(w))
    ensures Inv(TakeStep(s, w, stagingPages), stagingPages)
  {
    hide HandOff, Accounted, JobsOf;
    var job, s' := s.jobs[0], TakeStep(s, w, stagingPages);
    assert |s.staging| == |s.workers| by { HandOffSizes(s); }
    TakeHandOff(s, w, stagingPages);
    var reported := if job.Pages() == 0 then [Done(job, w, true)] else [];
    OneRecord(Done(job, w, true));
    NoRecords();
    HandMoves(s, s', w, job, true, reported);
  }

  lemma {:induction false} NoRecords()
    ensures JobsOf([]) == multiset{}
  {
  }

  lemma {:induction false} HandOffSizes(s: State)
    requires HandOff(s)
    ensures |s.staging| == |s.workers|
  {
  }

  lemma {:induction false} AttemptHandOff(s: State, w: nat, complete: bool)
    requires HandOff(s) && Enabled(s, Attempt(w, complete))
    ensures HandOff(AttemptStep(s, w, complete))
  {
    hide RecordOk, HasRecord, HandOff;
    var job := s.workers[w].job;
    var buffer, s' := if complete then Some(job) else None, AttemptStep(s, w, complete);
    var written := s.(staging := s.staging[w := buffer]);
    WorkerMoves(s, w, if s'.workers[w].Waiting? then s.workers[w] else s'.workers[w], buffer);
    assert s.workers[w := s.workers[w]] == s.workers;
    if s'.workers[w].Waiting? {
      FreeWorkerReports(written, w, job, complete);
    }
  }

  lemma {:induction false} AttemptKeeps(s: State, w: nat, complete: bool, stagingPages: nat)
    requires Inv(s, stagingPages) && Enabled(s, Attempt(w, complete))
    ensures Inv(AttemptStep(s, w, complete), stagingPages)
  {
    hide HandOff, Accounted, JobsOf;
    var job, s' := s.workers[w].job, AttemptStep(s, w, complete);
    assert PhaseOk(s.workers[w], stagingPages);
    AttemptHandOff(s, w, complete);
    var reported := if s'.workers[w].Waiting? then [Done(job, w, complete)] else [];
    OneRecord(Done(job, w, complete));
    NoRecords();
    HandMoves(s, s', w, job, false, reported);
  }

  /** The records left after one is installed are the others. */
  lemma {:induction false} OtherRecords(s: State, i: nat, raised: bool)
    requires Enabled(s, Install(i, raised))
    ensures var left, all := Pending(InstallStep(s, i, raised)), Pending(s);
            && |left| == |all| - 1 && i < |all| && all[i] == s.polled[i]
            && (forall k :: 0 <= k < i ==> left[k] == all[k])
            && (forall k :: i <= k < |left| ==> left[k] == all[k + 1])
  {
  }

  lemma {:induction false} InstallHandOff(s: State, i: nat, raised: bool)
    requires HandOff(s) && Enabled(s, Install(i, raised))
    ensures HandOff(InstallStep(s, i, raised))
  {
    OtherRecords(s, i, raised);
    var s', d := InstallStep(s, i, raised), s.polled[i];
    assert RecordOk(s, Pending(s)[i]);
    hide Pending;
    forall k | 0 <= k < |Pending(s')| ensures RecordOk(s', Pending(s')[k]) {
      assert RecordOk(s, Pending(s)[if k < i then k else k + 1]);
    }
    forall v | 0 <= v < |s'.workers| && s'.workers[v].Waiting? && !s'.workers[v].released ensures HasRecord(s', v) {
      assert HasRecord(s, v);
      var k :| 0 <= k < |Pending(s)| && Pending(s)[k].worker == v;
      assert k != i;
      assert Pending(s')[if k < i then k else k - 1].worker == v;
    }
  }

  lemma {:induction false} InstallKeepsInHand(s: State, i: nat, raised: bool)
    requires Enabled(s, Install(i, raised))
    ensures InHand(InstallStep(s, i, raised).workers) == InHand(s.workers)
  {
    hide InHand;
    var workers', w := InstallStep(s, i, raised).workers, s.polled[i].worker;
    InHandUpdate(s.workers, w, workers'[w]);
    assert s.workers[w := workers'[w]] == workers';
    Cancel(InHand(workers'), InHandOf(s.workers[w]), InHand(s.workers));
  }

  lemma {:induction false} InstallKeepsBooks(s: State, i: nat, raised: bool)
    requires Enabled(s, Install(i, raised))
    ensures Accounted(InstallStep(s, i, raised)) == Accounted(s)
  {
    hide InHand, JobsOf;
    var s', d := InstallStep(s, i, raised), s.polled[i];
    InstallKeepsInHand(s, i, raised);
    RemoveRecord(s.polled, i);
    JobsOfConcat(s.installed, [d]);
    OneRecord(d);
    forall j: Job ensures Accounted(s')[j] == Accounted(s)[j] {
    }
  }

  lemma {:induction false} InstallKeeps(s: State, i: nat, raised: bool, stagingPages: nat)
    requires Inv(s, stagingPages) && Enabled(s, Install(i, raised))
    ensures Inv(InstallStep(s, i, raised), stagingPages)
  {
    hide HandOff, Accounted;
    InstallHandOff(s, i, raised);
    InstallKeepsBooks(s, i, raised);
  }

  lemma {:induction false} PollKeeps(s: State, stagingPages: nat)
    requires Inv(s, stagingPages) && Enabled(s, Poll)
    ensures Inv(Step(s, Poll, stagingPages), stagingPages)
  {
    hide HandOff, InHand, JobsOf;
    var s' := Step(s, Poll, stagingPages);
    assert Pending(s') == Pending(s);
    SameHandOff(s, s');
    JobsOfConcat(s.polled, [s.doneQueue[0]]);
    OneRecord(s.doneQueue[0]);
    FirstRecord(s.doneQueue);
    assert Accounted(s') == Accounted(s);
  }

  lemma {:induction false} ResumeKeeps(s: State, w: nat, stagingPages: nat)
    requires Inv(s, stagingPages) && Enabled(s, Resume(w))
    ensures Inv(Step(s, Resume(w), stagingPages), stagingPages)
  {
    hide InHand, JobsOf, HandOff;
    HandOffSizes(s);
    var s' := Step(s, Resume(w), stagingPages);
    WorkerMoves(s, w, Idle, s.staging[w]);
    assert s.staging[w := s.staging[w]] == s.staging;
    InHandUpdate(s.workers, w, Idle);
    Cancel(InHand(s'.workers), multiset{}, InHand(s.workers));
  }

  /** Every event keeps the hand-off, the phases and the books. */
  lemma {:induction false} StepKeeps(s: State, e: Event, stagingPages: nat)
    requires Inv(s, stagingPages) && Enabled(s, e)
    ensures Inv(Step(s, e, stagingPages), stagingPages)
  {
    hide HandOff, Accounted, TakeStep, AttemptStep, InstallStep;
    match e
    case Take(w) => TakeKeeps(s, w, stagingPages);
    case Attempt(w, complete) => AttemptKeeps(s, w, complete, stagingPages);
    case Install(i, raised) => InstallKeeps(s, i, raised, stagingPages);
    case Submit(n) => SubmitKeeps(s, n, stagingPages);
    case Poll => PollKeeps(s, stagingPages);
    case Resume(w) => ResumeKeeps(s, w, stagingPages);
  }

  lemma {:induction false} SubmitKeeps(s: State, n: seq<int>, stagingPages: nat)
    requires Inv(s, stagingPages)
    ensures Inv(Step(s, Submit(n), stagingPages), stagingPages)
  {
    hide HandOff, InHand, JobsOf;
    var s' := Step(s, Submit(n), stagingPages);
    assert Pending(s') == Pending(s);
    SameHandOff(s, s');
    assert Accounted(s') == Accounted(s) + multiset{Job(|s.submitted|, n)};
  }

  lemma {:induction false} FirstRecord(records: seq<Done>)
    requires records != []
    ensures JobsOf(records) == multiset{records[0].job} + JobsOf(records[1..])
  {
  }

  // ---------- over whole runs ----------

  ghost predicate IsRun(numWorkers: nat, stagingPages: nat, states: seq<State>, events: seq<Event>) {
    && |states| == |events| + 1 && states[0] == Initial(numWorkers)
    && (forall k :: 0 <= k < |events| ==> Enabled(states[k], events[k]) && states[k + 1] == Step(states[k], events[k], stagingPages))
  }

  lemma {:induction false} RunsKeepInv(numWorkers: nat, stagingPages: nat, states: seq<State>, events: seq<Event>)
    requires IsRun(numWorkers, stagingPages, states, events)
    ensures Inv(states[|events|], stagingPages)
    decreases |events|
  {
    hide Inv, Step, Enabled;
    if events == [] {
      InitialInv(numWorkers, stagingPages);
    } else {
      var n := |events| - 1;
      RunsKeepInv(numWorkers, stagingPages, states[..n + 1], events[..n]);
      StepKeeps(states[n], events[n], stagingPages);
    }
  }

  /**
   Whatever the interleaving: an engine about to install a successful record finds the pages
   of that very job in the buffer, and the buffer's worker is asleep, so nobody writes it.
   */
  lemma {:induction false} InstallReadsItsOwnPages(numWorkers: nat, stagingPages: nat, states: seq<State>, events: seq<Event>, i: nat)
    requires IsRun(numWorkers, stagingPages, states, events) && i < |states[|events|].polled|
    ensures var s := states[|events|]; var d := s.polled[i];
            && d.worker < |s.workers| && s.workers[d.worker] == Waiting(d.job, false)
            && (d.ok && d.job.Pages() > 0 ==> d.worker < |s.staging| && s.staging[d.worker] == Some(d.job))
  {
    RunsKeepInv(numWorkers, stagingPages, states, events);
    var s := states[|events|];
    assert RecordOk(s, Pending(s)[i]);
  }

  lemma {:induction false} JobInRecords(records: seq<Done>, k: nat)
    requires k < |records|
    ensures records[k].job in JobsOf(records)
  {
    if k > 0 {
      JobInRecords(records[1..], k - 1);
    }
  }

  lemma {:induction false} TwoRecords(records: seq<Done>, k: nat, l: nat)
    requires k < l < |records| && records[k].job == records[l].job
    ensures JobsOf(records)[records[k].job] >= 2
  {
    if k == 0 {
      JobInRecords(records[1..], l - 1);
    } else {
      TwoRecords(records[1..], k - 1, l - 1);
    }
  }

  lemma {:induction false} OnceSubmitted(s: State, job: Job)
    requires Books(s)
    ensures multiset(s.submitted)[job] <= 1
  {
    DistinctOnce(s.submitted, job);
  }

  lemma {:induction false} DistinctOnce(jobs: seq<Job>, job: Job)
    requires forall i, j :: 0 <= i < j < |jobs| ==> jobs[i] != jobs[j]
    ensures multiset(jobs)[job] <= 1
  {
    if jobs != [] {
      DistinctOnce(jobs[1..], job);
      assert jobs == [jobs[0]] + jobs[1..];
      assert jobs[0] !in jobs[1..];
    }
  }

  /** No job is ever reported by two records, installed or not. */
  lemma {:induction false} ReportedAtMostOnce(numWorkers: nat, stagingPages: nat, states: seq<State>, events: seq<Event>, k: nat, l: nat)
    requires IsRun(numWorkers, stagingPages, states, events)
    requires var s := states[|events|]; k < l < |s.installed + s.polled + s.doneQueue|
    ensures var s := states[|events|]; var records := s.installed + s.polled + s.doneQueue; records[k].job != records[l].job
  {
    RunsKeepInv(numWorkers, stagingPages, states, events);
    var s := states[|events|];
    var records := s.installed + s.polled + s.doneQueue;
    JobsOfConcat(s.installed + s.polled, s.doneQueue);
    JobsOfConcat(s.installed, s.polled);
    hide HandOff, Phases, InHand, JobsOf;
    if records[k].job == records[l].job {
      TwoRecords(records, k, l);
      OnceSubmitted(s, records[k].job);
    }
  }

  /** In every reachable state a submitted job is in exactly one place, and only an unservable one is with a dead worker. */
  lemma {:induction false} OnePlace(numWorkers: nat, stagingPages: nat, states: seq<State>, events: seq<Event>, job: Job)
    requires IsRun(numWorkers, stagingPages, states, events) && job in states[|events|].submitted
    ensures var s := states[|events|];
            && multiset(s.jobs)[job] + InHand(s.workers)[job] + JobsOf(s.doneQueue + s.polled + s.installed)[job] == 1
            && (forall w :: 0 <= w < |s.workers| && s.workers[w].Dead? && s.workers[w].job == job ==> !job.Servable(stagingPages))
            && (forall w :: 0 <= w < |s.workers| && s.workers[w].Fetching? && s.workers[w].job == job ==> job.Servable(stagingPages))
  {
    RunsKeepInv(numWorkers, stagingPages, states, events);
    PlacesOf(states[|events|], job);
    var s := states[|events|];
    forall w | 0 <= w < |s.workers| ensures PhaseOk(s.workers[w], stagingPages) {
    }
  }

  lemma {:induction false} PlacesOf(s: State, job: Job)
    requires Books(s) && job in s.submitted
    ensures multiset(s.jobs)[job] + InHand(s.workers)[job] + JobsOf(s.doneQueue + s.polled + s.installed)[job] == 1
  {
    hide InHand, JobsOf;
    JobsOfConcat(s.doneQueue + s.polled, s.installed);
    JobsOfConcat(s.doneQueue, s.polled);
    OnceSubmitted(s, job);
    assert multiset(s.submitted)[job] == 1;
    assert Accounted(s)[job] == 1;
  }

  lemma {:induction false} HeldBy(workers: seq<Phase>, job: Job) returns (w: nat)
    requires job in InHand(workers)
    ensures w < |workers| && (workers[w].Fetching? || workers[w].Dead?) && workers[w].job == job
  {
    if job in InHandOf(workers[0]) {
      w := 0;
    } else {
      w := HeldBy(workers[1..], job);
      w := w + 1;
    }
  }
}

/**
 The bookkeeping of the barrier-free MoE simulator, as functions on values: request
 admission, token issue, and the join that waits for every expert replica of a token.

 A `ref` is a reference to a Token object: its position in the log of created tokens.
 Every function returns the attention work it hands over, in the order the simulator
 enqueues it, and fails where the simulator raises.
 */
module AsyncCore {
  import opened Wrappers

  datatype Policy = LongestQueueFirst | DefraggingV0

  datatype Config = Config(
    numLayers: nat,
    numWorkers: nat,
    queuesPerWorker: nat,
    maxBatch: nat,
    totalRequests: nat,
    tokensPerRequest: nat,
    maxActive: Option<nat>,
    topK: nat,
    policy: Policy)
  {
    predicate WellFormed() {
      numLayers >= 1 && numWorkers >= 1 && queuesPerWorker >= 1 && maxBatch >= 1 && tokensPerRequest >= 1
    }

    /** No limit on concurrent requests, or a limit that admits at least one. */
    predicate CanAdmit() {
      maxActive.Some? ==> maxActive.value >= 1
    }
  }

  datatype Token = Token(tid: nat, rid: nat, index: nat, home: nat, fanout: map<nat, nat>)

  /** Attention work for layer `layer` on token `ref`. */
  datatype Work = Work(layer: nat, ref: nat)

  datatype Error =
    | AlreadyStarted
    | UnknownRequest
    | NotTracked
    | MissingHome
    | HomeOutOfRange
    | MissingFanout
    | TooManyCompletions
    | NoExperts
    | ExpertOutOfRange
    | BadReference

  datatype Manager = Manager(
    nextTid: nat,
    active: map<nat, nat>,   // request id -> index of the next token to issue
    home: map<nat, nat>,     // request id -> attention GPU
    nextHome: nat,
    pending: seq<nat>,       // requests that arrived while the cap was reached
    tokens: seq<Token>,      // every Token object created so far
    completed: seq<nat>)     // references of finished tokens, in completion order
  {
    predicate HasRoom(c: Config) {
      c.maxActive.None? || |active| < c.maxActive.value
    }
  }

  type Outcome = Result<(Manager, seq<Work>), Error>

  function DispatchNext(c: Config, m: Manager, rid: nat): Outcome {
    if rid !in m.active then Failure(NotTracked)
    else if m.active[rid] >= c.tokensPerRequest then Success((m, []))
    else if rid !in m.home then Failure(MissingHome)
    else
      var token := Token(m.nextTid, rid, m.active[rid], m.home[rid], map[]);
      Success((m.(nextTid := m.nextTid + 1,
                  active := m.active[rid := m.active[rid] + 1],
                  tokens := m.tokens + [token]),
               [Work(0, |m.tokens|)]))
  }

  function StartNow(c: Config, m: Manager, rid: nat): Outcome
    requires c.WellFormed()
  {
    if rid in m.active then Failure(AlreadyStarted)
    else DispatchNext(c, Registered(c, m, rid), rid)
  }

  function Registered(c: Config, m: Manager, rid: nat): Manager
    requires c.WellFormed()
  {
    m.(active := m.active[rid := 0],
       home := m.home[rid := m.nextHome % c.numWorkers],
       nextHome := m.nextHome + 1)
  }

  function Admit(c: Config, m: Manager, rid: nat): Outcome
    requires c.WellFormed()
  {
    if m.HasRoom(c) then StartNow(c, m, rid)
    else Success((m.(pending := m.pending + [rid]), []))
  }

  function AdmitQueued(c: Config, m: Manager): Outcome
    requires c.WellFormed()
    decreases |m.pending|
  {
    if m.pending == [] || !m.HasRoom(c) then Success((m, []))
    else
      var (m1, works1) :- StartNow(c, m.(pending := m.pending[1..]), m.pending[0]);
      assert |m1.pending| < |m.pending|;
      var (m2, works2) :- AdmitQueued(c, m1);
      Success((m2, works1 + works2))
  }

  /** The completion of the token at `ref`: record it, then issue the request's next token or retire the request. */
  function HandleCompletion(c: Config, m: Manager, ref: nat): Outcome
    requires c.WellFormed() && ref < |m.tokens|
  {
    var rid := m.tokens[ref].rid;
    var m1 := m.(completed := m.completed + [ref]);
    if rid !in m.active then Failure(UnknownRequest)
    else if m.tokens[ref].index + 1 < c.tokensPerRequest then DispatchNext(c, m1, rid)
    else AdmitQueued(c, m1.(active := m1.active - {rid}, home := m1.home - {rid}))
  }

  /**
   Everything outside the GPUs. `joins[l]` counts the replicas returned to attention layer
   `l`, and `joins[numLayers]` those returned to the final completion tracker.
   */
  datatype Core = Core(arrived: nat, mgr: Manager, joins: seq<map<nat, nat>>)

  function InitialCore(c: Config): Core {
    Core(0, Manager(0, map[], map[], 0, [], [], []), seq(c.numLayers + 1, _ => map[]))
  }

  /** One replica count of a join table goes up; `None` when that was the last one expected. */
  function CountReplica(counts: map<nat, nat>, key: nat, expected: nat): Result<Option<map<nat, nat>>, Error> {
    var current := (if key in counts then counts[key] else 0) + 1;
    if current < expected then Success(Some(counts[key := current]))
    else if current == expected then Success(None)
    else Failure(TooManyCompletions)
  }

  /** A replica of token `ref` comes back from an expert of layer `layer`. */
  function Join(c: Config, s: Core, ref: nat, layer: nat): Result<(Core, seq<Work>), Error>
    requires c.WellFormed() && ref < |s.mgr.tokens| && layer < c.numLayers < |s.joins|
  {
    var token := s.mgr.tokens[ref];
    var slot := layer + 1;
    if layer !in token.fanout || token.fanout[layer] == 0 then Failure(MissingFanout)
    else
      var counted :- CountReplica(s.joins[slot], token.tid, token.fanout[layer]);
      match counted
      case Some(counts) => Success((s.(joins := s.joins[slot := counts]), []))
      case None =>
        var joins := s.joins[slot := s.joins[slot] - {token.tid}];
        if slot < c.numLayers then
          Success((s.(joins := joins), [Work(slot, ref)]))
        else
          var (m, works) :- HandleCompletion(c, s.mgr, ref);
          Success((s.(mgr := m, joins := joins), works))
  }

  /** The next request of the arrival process. */
  function Arrive(c: Config, s: Core): Result<(Core, seq<Work>), Error>
    requires c.WellFormed()
  {
    var (m, works) :- Admit(c, s.mgr, s.arrived);
    Success((s.(mgr := m, arrived := s.arrived + 1), works))
  }

  /** The router chose `fanout` experts for token `ref` in `layer`. */
  function RecordFanout(s: Core, ref: nat, layer: nat, fanout: nat): Core
    requires ref < |s.mgr.tokens|
  {
    var token := s.mgr.tokens[ref];
    s.(mgr := s.mgr.(tokens := s.mgr.tokens[ref := token.(fanout := token.fanout[layer := fanout])]))
  }
}

/**
 The shape of the flow in any solution of the placement problem, and so, by soundness, in
 any feasible vector: it has no cycles, what leaves the source reaches the sink, every edge
 that carries flow lies on a pipeline from source to sink, and every pipeline runs each
 layer of the model exactly once, on a GPU that holds it.
 */
module HelixFlow {
  import opened Counting
  import opened HelixEncoding
  import opened HelixMeaning

  ghost predicate Carries(edges: seq<Edge>, f: FlowMap, e: Edge) {
    e in edges && f(e) > 0.0
  }

  ghost predicate IsPath(edges: seq<Edge>, f: FlowMap, path: seq<Node>) {
    |path| >= 1 && forall k :: 0 <= k < |path| - 1 ==> Carries(edges, f, Edge(path[k], path[k + 1]))
  }

  ghost predicate IsPipeline(edges: seq<Edge>, f: FlowMap, path: seq<Node>) {
    IsPath(edges, f, path) && path[0] == Source && path[|path| - 1] == Sink
  }

  // ---------- no cycles ----------

  /** Position along the model: a GPU stands at the end of its range. */
  function Rank(p: Problem, pl: Placement, n: Node): int
    requires Sized(p, pl) && KnownNode(p, n)
  {
    match n
    case Source => 0
    case Sink => p.numLayers + 1
    case Gpu(i) => End(pl, i)
  }

  lemma {:induction false} CarriedEdge(p: Problem, edges: seq<Edge>, pl: Placement, f: FlowMap, e: Edge)
    requires ProperEdges(p, edges) && Solution(p, edges, pl, f) && Carries(edges, f, e)
    ensures ProperEdge(p, e) && Open(p, pl, e) && Rank(p, pl, e.from) < Rank(p, pl, e.to)
  {
    var j :| 0 <= j < |edges| && edges[j] == e;
    hide GpuFlowOk;
    assert EdgeFlowOk(p, pl, f, edges[j]) && ProperEdge(p, edges[j]);
  }

  lemma {:induction false} RankIncreases(p: Problem, edges: seq<Edge>, pl: Placement, f: FlowMap, path: seq<Node>, i: nat, j: nat)
    requires ProperEdges(p, edges) && Solution(p, edges, pl, f) && IsPath(edges, f, path) && i < j < |path|
    ensures KnownNode(p, path[i]) && KnownNode(p, path[j]) && Rank(p, pl, path[i]) < Rank(p, pl, path[j])
    decreases j - i
  {
    hide FlowOk;
    assert Carries(edges, f, Edge(path[i], path[i + 1]));
    CarriedEdge(p, edges, pl, f, Edge(path[i], path[i + 1]));
    if i + 1 < j {
      RankIncreases(p, edges, pl, f, path, i + 1, j);
    }
  }

  /** The flow never comes back to a node. */
  lemma {:induction false} NoCycles(p: Problem, edges: seq<Edge>, pl: Placement, f: FlowMap, path: seq<Node>)
    requires ProperEdges(p, edges) && Solution(p, edges, pl, f) && IsPath(edges, f, path)
    ensures Distinct(path)
  {
    hide Solution, ProperEdges, IsPath, Rank;
    forall i, j | 0 <= i < j < |path| ensures path[i] != path[j] {
      RankIncreases(p, edges, pl, f, path, i, j);
    }
  }

  // ---------- conservation over the whole graph ----------

  function Everything(): Edge -> bool { (e: Edge) => true }

  function SumGpus(edges: seq<Edge>, f: FlowMap, side: Node -> Edge -> bool, n: nat): real {
    if n == 0 then 0.0 else SumGpus(edges, f, side, n - 1) + SumWhere(edges, f, side(Gpu(n - 1)))
  }

  lemma {:induction false} OneEdgeMore(edges: seq<Edge>, f: FlowMap, side: Node -> Edge -> bool, n: nat, end: Node)
    requires edges != [] && forall m :: side(m)(edges[0]) <==> m == end
    ensures SumGpus(edges, f, side, n)
         == SumGpus(edges[1..], f, side, n) + (if end.Gpu? && end.id < n then f(edges[0]) else 0.0)
  {
    if n > 0 {
      OneEdgeMore(edges, f, side, n - 1, end);
    }
  }

  /** All flow, seen from where it starts. */
  lemma {:induction false} SplitByStart(p: Problem, edges: seq<Edge>, f: FlowMap)
    requires ProperEdges(p, edges)
    ensures SumWhere(edges, f, Everything()) == Outflow(edges, f, Source) + SumGpus(edges, f, OutOf, |p.gpus|)
  {
    if edges == [] {
      NoEdgesNoFlow(f, OutOf, |p.gpus|);
    } else {
      assert ProperEdge(p, edges[0]);
      OneEdgeMore(edges, f, OutOf, |p.gpus|, edges[0].from);
      SplitByStart(p, edges[1..], f);
    }
  }

  /** All flow, seen from where it ends. */
  lemma {:induction false} SplitByEnd(p: Problem, edges: seq<Edge>, f: FlowMap)
    requires ProperEdges(p, edges)
    ensures SumWhere(edges, f, Everything()) == Inflow(edges, f, Sink) + SumGpus(edges, f, Into, |p.gpus|)
  {
    if edges == [] {
      NoEdgesNoFlow(f, Into, |p.gpus|);
    } else {
      assert ProperEdge(p, edges[0]);
      OneEdgeMore(edges, f, Into, |p.gpus|, edges[0].to);
      SplitByEnd(p, edges[1..], f);
    }
  }

  lemma {:induction false} NoEdgesNoFlow(f: FlowMap, side: Node -> Edge -> bool, n: nat)
    ensures SumGpus([], f, side, n) == 0.0
  {
    if n > 0 {
      NoEdgesNoFlow(f, side, n - 1);
    }
  }

  lemma {:induction false} GpusBalance(p: Problem, edges: seq<Edge>, pl: Placement, f: FlowMap, n: nat)
    requires ProperEdges(p, edges) && Solution(p, edges, pl, f) && n <= |p.gpus|
    ensures SumGpus(edges, f, OutOf, n) == SumGpus(edges, f, Into, n)
  {
    if n > 0 {
      hide SumWhere, EdgeFlowOk, PlacementOk;
      assert GpuFlowOk(p, edges, pl, f, n - 1);
      GpusBalance(p, edges, pl, f, n - 1);
    }
  }

  /** What leaves the source reaches the sink. */
  lemma {:induction false} SourceFlowIsSinkFlow(p: Problem, edges: seq<Edge>, pl: Placement, f: FlowMap)
    requires ProperEdges(p, edges) && Solution(p, edges, pl, f)
    ensures Outflow(edges, f, Source) == Inflow(edges, f, Sink)
  {
    SplitByStart(p, edges, f);
    SplitByEnd(p, edges, f);
    GpusBalance(p, edges, pl, f, |p.gpus|);
  }

  // ---------- every carrying edge is on a pipeline ----------

  lemma {:induction false} PositiveSum(edges: seq<Edge>, f: FlowMap, sel: Edge -> bool)
    requires forall j :: 0 <= j < |edges| ==> f(edges[j]) >= 0.0
    ensures SumWhere(edges, f, sel) >= 0.0
    ensures SumWhere(edges, f, sel) > 0.0 <==> exists e :: Carries(edges, f, e) && sel(e)
  {
    if edges != [] {
      PositiveSum(edges[1..], f, sel);
      if sel(edges[0]) && f(edges[0]) > 0.0 {
        assert Carries(edges, f, edges[0]);
      }
      if e :| Carries(edges[1..], f, e) && sel(e) {
        assert Carries(edges, f, e);
      }
      if e :| Carries(edges, f, e) && sel(e) {
        assert e == edges[0] || Carries(edges[1..], f, e);
      }
    }
  }

  lemma {:induction false} NonNegativeFlow(p: Problem, edges: seq<Edge>, pl: Placement, f: FlowMap)
    requires ProperEdges(p, edges) && Solution(p, edges, pl, f)
    ensures forall j :: 0 <= j < |edges| ==> f(edges[j]) >= 0.0
  {
    hide Open, EdgeThroughput, GpuFlowOk;
    assert forall j :: 0 <= j < |edges| ==> EdgeFlowOk(p, pl, f, edges[j]);
  }

  /** Flow that enters a GPU leaves it, and flow that leaves it has entered it. */
  lemma {:induction false} FlowGoesOn(p: Problem, edges: seq<Edge>, pl: Placement, f: FlowMap, i: nat)
    requires ProperEdges(p, edges) && Solution(p, edges, pl, f) && i < |p.gpus|
    ensures (exists e :: Carries(edges, f, e) && e.to == Gpu(i)) <==> (exists e :: Carries(edges, f, e) && e.from == Gpu(i))
  {
    NonNegativeFlow(p, edges, pl, f);
    PositiveSum(edges, f, Into(Gpu(i)));
    PositiveSum(edges, f, OutOf(Gpu(i)));
    assert GpuFlowOk(p, edges, pl, f, i);
    hide SumWhere, Solution;
    if e :| Carries(edges, f, e) && e.to == Gpu(i) {
      assert Into(Gpu(i))(e);
      var e' :| Carries(edges, f, e') && OutOf(Gpu(i))(e');
      assert e'.from == Gpu(i);
    }
    if e :| Carries(edges, f, e) && e.from == Gpu(i) {
      assert OutOf(Gpu(i))(e);
      var e' :| Carries(edges, f, e') && Into(Gpu(i))(e');
      assert e'.to == Gpu(i);
    }
  }

  lemma {:induction false} OnToSink(p: Problem, edges: seq<Edge>, pl: Placement, f: FlowMap, e: Edge) returns (path: seq<Node>)
    requires ProperEdges(p, edges) && Solution(p, edges, pl, f) && Carries(edges, f, e)
    ensures IsPath(edges, f, path) && path[0] == e.to && path[|path| - 1] == Sink
    decreases if KnownNode(p, e.to) then p.numLayers + 1 - Rank(p, pl, e.to) else 0
  {
    hide FlowOk, ProperEdges, Carries;
    CarriedEdge(p, edges, pl, f, e);
    if e.to == Sink {
      path := [Sink];
    } else {
      FlowGoesOn(p, edges, pl, f, e.to.id);
      var e' :| Carries(edges, f, e') && e'.from == e.to;
      CarriedEdge(p, edges, pl, f, e');
      var rest := OnToSink(p, edges, pl, f, e');
      path := [e.to] + rest;
      assert Edge(path[0], path[1]) == e';
      forall k | 0 <= k < |path| - 1 ensures Carries(edges, f, Edge(path[k], path[k + 1])) {
        if k > 0 {
          assert Carries(edges, f, Edge(rest[k - 1], rest[k]));
        }
      }
    }
  }

  lemma {:induction false} BackToSource(p: Problem, edges: seq<Edge>, pl: Placement, f: FlowMap, e: Edge) returns (path: seq<Node>)
    requires ProperEdges(p, edges) && Solution(p, edges, pl, f) && Carries(edges, f, e)
    ensures IsPath(edges, f, path) && path[0] == Source && path[|path| - 1] == e.from
    decreases if KnownNode(p, e.from) then Rank(p, pl, e.from) else 0
  {
    hide FlowOk, ProperEdges, Carries;
    CarriedEdge(p, edges, pl, f, e);
    if e.from == Source {
      path := [Source];
    } else {
      FlowGoesOn(p, edges, pl, f, e.from.id);
      var e' :| Carries(edges, f, e') && e'.to == e.from;
      CarriedEdge(p, edges, pl, f, e');
      var rest := BackToSource(p, edges, pl, f, e');
      path := rest + [e.from];
      assert Edge(path[|path| - 2], path[|path| - 1]) == e';
      forall k | 0 <= k < |path| - 1 ensures Carries(edges, f, Edge(path[k], path[k + 1])) {
        if k < |path| - 2 {
          assert Carries(edges, f, Edge(rest[k], rest[k + 1]));
        }
      }
    }
  }

  /** Every edge that carries flow is part of a pipeline from source to sink. */
  lemma {:induction false} EveryEdgeOnPipeline(p: Problem, edges: seq<Edge>, pl: Placement, f: FlowMap, e: Edge) returns (path: seq<Node>, k: nat)
    requires ProperEdges(p, edges) && Solution(p, edges, pl, f) && Carries(edges, f, e)
    ensures IsPipeline(edges, f, path) && k < |path| - 1 && path[k] == e.from && path[k + 1] == e.to
  {
    hide Solution, ProperEdges, Carries;
    var before := BackToSource(p, edges, pl, f, e);
    var after := OnToSink(p, edges, pl, f, e);
    path, k := before + after, |before| - 1;
    forall j | 0 <= j < |path| - 1 ensures Carries(edges, f, Edge(path[j], path[j + 1])) {
      if j < |before| - 1 {
        assert Carries(edges, f, Edge(before[j], before[j + 1]));
      } else if j == |before| - 1 {
        assert Edge(path[j], path[j + 1]) == e;
      } else {
        assert Carries(edges, f, Edge(after[j - |before|], after[j - |before| + 1]));
      }
    }
  }

  // ---------- every pipeline runs every layer once ----------

  /** The first layer the k-th node of a pipeline runs: where its predecessor ends. */
  function RunsFrom(p: Problem, pl: Placement, path: seq<Node>, k: nat): int
    requires Sized(p, pl) && 1 <= k < |path| && KnownNode(p, path[k - 1])
  {
    Rank(p, pl, path[k - 1])
  }

  ghost predicate Runs(p: Problem, pl: Placement, path: seq<Node>, k: nat, layer: int)
    requires Sized(p, pl)
  {
    && 1 <= k < |path| - 1 && path[k].Gpu? && KnownNode(p, path[k]) && KnownNode(p, path[k - 1])
    && RunsFrom(p, pl, path, k) <= layer < End(pl, path[k].id)
  }

  ghost predicate HoldsLayer(p: Problem, pl: Placement, path: seq<Node>, k: nat, layer: int)
    requires Sized(p, pl)
  {
    1 <= k < |path| - 1 && path[k].Gpu? && KnownNode(p, path[k]) && pl.start[path[k].id] <= layer < End(pl, path[k].id)
  }

  /** Inside a pipeline there are only GPUs, each starts no later than its predecessor ends, and exactly there without partial inference. */
  lemma {:induction false} PipelineStage(p: Problem, edges: seq<Edge>, pl: Placement, f: FlowMap, path: seq<Node>, k: nat)
    requires ProperEdges(p, edges) && Solution(p, edges, pl, f) && IsPipeline(edges, f, path) && 1 <= k < |path| - 1
    ensures path[k].Gpu? && KnownNode(p, path[k]) && KnownNode(p, path[k - 1])
    ensures pl.start[path[k].id] <= RunsFrom(p, pl, path, k) < End(pl, path[k].id)
    ensures !p.partialInference ==> pl.start[path[k].id] == RunsFrom(p, pl, path, k)
    ensures k + 1 == |path| - 1 ==> End(pl, path[k].id) == p.numLayers
  {
    hide FlowOk;
    assert Carries(edges, f, Edge(path[k - 1], path[k])) && Carries(edges, f, Edge(path[k], path[k + 1]));
    hide Carries, IsPath;
    CarriedEdge(p, edges, pl, f, Edge(path[k - 1], path[k]));
    CarriedEdge(p, edges, pl, f, Edge(path[k], path[k + 1]));
  }

  lemma {:induction false} SomeStageRuns(p: Problem, edges: seq<Edge>, pl: Placement, f: FlowMap, path: seq<Node>, layer: int, k: nat) returns (j: nat)
    requires ProperEdges(p, edges) && Solution(p, edges, pl, f) && IsPipeline(edges, f, path) && 1 <= k < |path| - 1
    requires path[k].Gpu? && KnownNode(p, path[k]) && 0 <= layer < End(pl, path[k].id)
    ensures Runs(p, pl, path, j, layer)
  {
    hide FlowOk, IsPath, ProperEdges;
    PipelineStage(p, edges, pl, f, path, k);
    if RunsFrom(p, pl, path, k) <= layer {
      j := k;
    } else {
      assert k > 1;
      PipelineStage(p, edges, pl, f, path, k - 1);
      j := SomeStageRuns(p, edges, pl, f, path, layer, k - 1);
    }
  }

  /** A pipeline runs every layer of the model, each on exactly one of its GPUs, and that GPU holds the layer. */
  lemma {:induction false} PipelineTilesModel(p: Problem, edges: seq<Edge>, pl: Placement, f: FlowMap, path: seq<Node>, layer: int) returns (k: nat)
    requires ProperEdges(p, edges) && Solution(p, edges, pl, f) && IsPipeline(edges, f, path) && 0 <= layer < p.numLayers
    ensures Runs(p, pl, path, k, layer)
    ensures HoldsLayer(p, pl, path, k, layer)
    ensures forall j: nat :: Runs(p, pl, path, j, layer) ==> j == k
    ensures !p.partialInference ==> forall j: nat :: HoldsLayer(p, pl, path, j, layer) ==> j == k
  {
    assert !Carries(edges, f, Edge(Source, Sink));
    assert Carries(edges, f, Edge(path[0], path[1]));
    hide FlowOk, IsPath, ProperEdges;
    PipelineStage(p, edges, pl, f, path, |path| - 2);
    k := SomeStageRuns(p, edges, pl, f, path, layer, |path| - 2);
    PipelineStage(p, edges, pl, f, path, k);
    forall j: nat | Runs(p, pl, path, j, layer) ensures j == k {
      StagesDisjoint(p, edges, pl, f, path, layer, j, k);
    }
    if !p.partialInference {
      forall j: nat | HoldsLayer(p, pl, path, j, layer) ensures j == k {
        PipelineStage(p, edges, pl, f, path, j);
        StagesDisjoint(p, edges, pl, f, path, layer, j, k);
      }
    }
  }

  lemma {:induction false} StagesDisjoint(p: Problem, edges: seq<Edge>, pl: Placement, f: FlowMap, path: seq<Node>, layer: int, j: nat, k: nat)
    requires ProperEdges(p, edges) && Solution(p, edges, pl, f) && IsPipeline(edges, f, path)
    requires Runs(p, pl, path, j, layer) && Runs(p, pl, path, k, layer)
    ensures j == k
  {
    hide FlowOk, ProperEdges, IsPath;
    if j < k - 1 {
      RankIncreases(p, edges, pl, f, path, j, k - 1);
    } else if k < j - 1 {
      RankIncreases(p, edges, pl, f, path, k, j - 1);
    }
  }
}

/** What a Helix solution means: layer ranges on GPUs, and a flow along the edges they open. */
module HelixMeaning {
  import opened Counting
  import opened HelixEncoding

  /** GPU i holds layers start[i] .. start[i] + count[i] - 1. */
  datatype Placement = Placement(start: seq<int>, count: seq<nat>)

  type FlowMap = Edge -> real

  predicate Sized(p: Problem, pl: Placement) {
    |pl.start| == |pl.count| == |p.gpus|
  }

  function End(pl: Placement, i: nat): int
    requires i < |pl.start| && i < |pl.count|
  {
    pl.start[i] + pl.count[i]
  }

  /** Every GPU holds a non-empty range of layers of the model, no longer than it can. */
  predicate PlacementOk(p: Problem, pl: Placement) {
    && Sized(p, pl)
    && (forall i :: 0 <= i < |p.gpus| ==>
          0 <= pl.start[i] && 1 <= pl.count[i] <= p.gpus[i].maxLayers && End(pl, i) <= p.numLayers)
  }

  /** Whether tokens may pass along an edge. */
  predicate Open(p: Problem, pl: Placement, e: Edge)
    requires Sized(p, pl) && ProperEdge(p, e)
  {
    if e.from == Source then pl.start[e.to.id] == 0
    else if e.to == Sink then End(pl, e.from.id) == p.numLayers
    else if p.partialInference then pl.start[e.to.id] <= End(pl, e.from.id) < End(pl, e.to.id)
    else End(pl, e.from.id) == pl.start[e.to.id]
  }

  function Into(n: Node): Edge -> bool { (e: Edge) => e.to == n }
  function OutOf(n: Node): Edge -> bool { (e: Edge) => e.from == n }

  function SumWhere(edges: seq<Edge>, f: FlowMap, sel: Edge -> bool): real {
    if edges == [] then 0.0
    else (if sel(edges[0]) then f(edges[0]) else 0.0) + SumWhere(edges[1..], f, sel)
  }

  function Inflow(edges: seq<Edge>, f: FlowMap, n: Node): real { SumWhere(edges, f, Into(n)) }
  function Outflow(edges: seq<Edge>, f: FlowMap, n: Node): real { SumWhere(edges, f, OutOf(n)) }

  predicate EdgeFlowOk(p: Problem, pl: Placement, f: FlowMap, e: Edge)
    requires Sized(p, pl) && ProperEdge(p, e)
  {
    0.0 <= f(e) <= EdgeThroughput(p.links, e) && (f(e) > 0.0 ==> Open(p, pl, e))
  }

  predicate GpuFlowOk(p: Problem, edges: seq<Edge>, pl: Placement, f: FlowMap, i: nat)
    requires Sized(p, pl) && i < |p.gpus|
  {
    && Inflow(edges, f, Gpu(i)) == Outflow(edges, f, Gpu(i))
    && Inflow(edges, f, Gpu(i)) <= GpuThroughput(p.gpus[i])(pl.count[i])
  }

  /** Flow within the links, only along open edges, conserved at GPUs and within their throughput. */
  predicate FlowOk(p: Problem, edges: seq<Edge>, pl: Placement, f: FlowMap)
    requires Sized(p, pl) && ProperEdges(p, edges)
  {
    && (forall j :: 0 <= j < |edges| ==> EdgeFlowOk(p, pl, f, edges[j]))
    && (forall i :: 0 <= i < |p.gpus| ==> GpuFlowOk(p, edges, pl, f, i))
  }

  /** A placement with a flow: a solution of the placement problem. */
  predicate Solution(p: Problem, edges: seq<Edge>, pl: Placement, f: FlowMap)
    requires ProperEdges(p, edges)
  {
    PlacementOk(p, pl) && FlowOk(p, edges, pl, f)
  }

  // ---------- the rows over neighbours sum the flow over edges ----------

  function FlowOf(x: Vec): FlowMap { (e: Edge) => x(Flow(e)) }

  function NeighbourSum(edges: seq<Edge>, nbs: seq<Node>, f: FlowMap, edge: Node -> Edge): real {
    if nbs == [] then 0.0
    else (if edge(nbs[0]) in edges then f(edge(nbs[0])) else 0.0) + NeighbourSum(edges, nbs[1..], f, edge)
  }

  lemma {:induction false} FlowTermsSum(edges: seq<Edge>, nbs: seq<Node>, edge: Node -> Edge, never: Node, x: Vec)
    requires edge(never) !in edges
    ensures Eval(FlowTerms(edges, nbs, edge, never), x) == NeighbourSum(edges, nbs, FlowOf(x), edge)
  {
    if nbs != [] {
      var first := if nbs[0] != never && edge(nbs[0]) in edges then [Term(Flow(edge(nbs[0])), 1.0)] else [];
      EvalConcat(first, FlowTerms(edges, nbs[1..], edge, never), x);
      EvalOne(Flow(edge(nbs[0])), 1.0, x);
      FlowTermsSum(edges, nbs[1..], edge, never, x);
    }
  }

  /** How one more edge changes the sum over neighbours. */
  lemma {:induction false} OneMoreEdge(e: Edge, edges: seq<Edge>, nbs: seq<Node>, f: FlowMap, edge: Node -> Edge)
    requires e !in edges && Distinct(nbs)
    requires forall a, b :: edge(a) == edge(b) ==> a == b
    ensures NeighbourSum([e] + edges, nbs, f, edge)
         == NeighbourSum(edges, nbs, f, edge) + (if exists nb :: nb in nbs && edge(nb) == e then f(e) else 0.0)
  {
    if nbs != [] {
      OneMoreEdge(e, edges, nbs[1..], f, edge);
      if edge(nbs[0]) == e {
        assert nbs[0] in nbs;
        assert forall nb :: nb in nbs[1..] ==> nb != nbs[0];
      } else {
        assert forall nb :: nb in nbs && edge(nb) == e ==> nb in nbs[1..];
      }
    }
  }

  lemma {:induction false} NeighbourSumIsEdgeSum(edges: seq<Edge>, nbs: seq<Node>, f: FlowMap, edge: Node -> Edge, sel: Edge -> bool)
    requires Distinct(edges) && Distinct(nbs)
    requires forall a, b :: edge(a) == edge(b) ==> a == b
    requires forall nb :: sel(edge(nb))
    requires forall j :: 0 <= j < |edges| && sel(edges[j]) ==> exists nb :: nb in nbs && edge(nb) == edges[j]
    ensures NeighbourSum(edges, nbs, f, edge) == SumWhere(edges, f, sel)
  {
    if edges == [] {
      NoEdges(nbs, f, edge);
    } else {
      var e, rest := edges[0], edges[1..];
      assert [e] + rest == edges;
      assert e !in rest;
      OneMoreEdge(e, rest, nbs, f, edge);
      NeighbourSumIsEdgeSum(rest, nbs, f, edge, sel);
    }
  }

  lemma {:induction false} NoEdges(nbs: seq<Node>, f: FlowMap, edge: Node -> Edge)
    ensures NeighbourSum([], nbs, f, edge) == 0.0
  {
    if nbs != [] {
      NoEdges(nbs[1..], f, edge);
    }
  }

  lemma {:induction false} NeighboursDistinct(links: seq<Link>, n: Node)
    ensures Distinct(Neighbours(links, n))
  {
    if links != [] {
      NeighboursDistinct(links[..|links| - 1], n);
    }
  }

  lemma {:induction false} NeighboursKept(links: seq<Link>, n: Node, j: nat)
    requires j < |links|
    ensures links[j].from == n ==> links[j].to in Neighbours(links, n)
    ensures links[j].to == n ==> links[j].from in Neighbours(links, n)
  {
    if j < |links| - 1 {
      NeighboursKept(links[..|links| - 1], n, j);
    }
  }

  /** Both ends of an edge are neighbours of each other. */
  lemma {:induction false} EdgeEndsAreNeighbours(p: Problem, edges: seq<Edge>, e: Edge)
    requires EdgeList(p, edges) && e in edges
    ensures e.from in Neighbours(p.links, e.to) && e.to in Neighbours(p.links, e.from)
  {
    var j :| 0 <= j < |p.links| && Yields(p.links[j], e);
    NeighboursKept(p.links, e.to, j);
    NeighboursKept(p.links, e.from, j);
  }

  lemma {:induction false} InTermsAreInflow(p: Problem, edges: seq<Edge>, i: nat, x: Vec)
    requires EdgeList(p, edges) && ProperEdges(p, edges)
    ensures Eval(InTerms(p, edges, i), x) == Inflow(edges, FlowOf(x), Gpu(i))
  {
    var nbs := Neighbours(p.links, Gpu(i));
    NeighboursDistinct(p.links, Gpu(i));
    assert Edge(Sink, Gpu(i)) !in edges;
    FlowTermsSum(edges, nbs, EdgeFrom(Gpu(i)), Sink, x);
    forall j | 0 <= j < |edges| && Into(Gpu(i))(edges[j]) ensures exists nb :: nb in nbs && EdgeFrom(Gpu(i))(nb) == edges[j] {
      EdgeEndsAreNeighbours(p, edges, edges[j]);
      assert EdgeFrom(Gpu(i))(edges[j].from) == edges[j];
    }
    NeighbourSumIsEdgeSum(edges, nbs, FlowOf(x), EdgeFrom(Gpu(i)), Into(Gpu(i)));
  }

  lemma {:induction false} OutTermsAreOutflow(p: Problem, edges: seq<Edge>, i: nat, x: Vec)
    requires EdgeList(p, edges) && ProperEdges(p, edges)
    ensures Eval(OutTerms(p, edges, i), x) == Outflow(edges, FlowOf(x), Gpu(i))
  {
    var nbs := Neighbours(p.links, Gpu(i));
    NeighboursDistinct(p.links, Gpu(i));
    assert Edge(Gpu(i), Source) !in edges;
    FlowTermsSum(edges, nbs, EdgeTo(Gpu(i)), Source, x);
    forall j | 0 <= j < |edges| && OutOf(Gpu(i))(edges[j]) ensures exists nb :: nb in nbs && EdgeTo(Gpu(i))(nb) == edges[j] {
      EdgeEndsAreNeighbours(p, edges, edges[j]);
      assert EdgeTo(Gpu(i))(edges[j].to) == edges[j];
    }
    NeighbourSumIsEdgeSum(edges, nbs, FlowOf(x), EdgeTo(Gpu(i)), OutOf(Gpu(i)));
  }

  // ---------- the objective is the flow out of the source ----------

  function FirstGpus(n: nat): (nbs: seq<Node>)
    ensures |nbs| == n && forall i :: 0 <= i < n ==> nbs[i] == Gpu(i)
  {
    seq(n, i requires 0 <= i < n => Gpu(i))
  }

  lemma {:induction false} NeighbourSumAppend(edges: seq<Edge>, nbs: seq<Node>, n: Node, f: FlowMap, edge: Node -> Edge)
    ensures NeighbourSum(edges, nbs + [n], f, edge)
         == NeighbourSum(edges, nbs, f, edge) + (if edge(n) in edges then f(edge(n)) else 0.0)
  {
    if nbs == [] {
      assert nbs + [n] == [n];
      assert [n][1..] == [];
    } else {
      assert (nbs + [n])[1..] == nbs[1..] + [n];
      NeighbourSumAppend(edges, nbs[1..], n, f, edge);
    }
  }

  lemma {:induction false} ObjectiveSum(edges: seq<Edge>, x: Vec, n: nat)
    ensures Objective(edges, x, n) == NeighbourSum(edges, FirstGpus(n), FlowOf(x), EdgeTo(Source))
  {
    if n > 0 {
      ObjectiveSum(edges, x, n - 1);
      assert FirstGpus(n) == FirstGpus(n - 1) + [Gpu(n - 1)];
      NeighbourSumAppend(edges, FirstGpus(n - 1), Gpu(n - 1), FlowOf(x), EdgeTo(Source));
    }
  }

  lemma {:induction false} ObjectiveIsSourceFlow(p: Problem, edges: seq<Edge>, x: Vec)
    requires EdgeList(p, edges) && ProperEdges(p, edges)
    ensures Objective(edges, x, |p.gpus|) == Outflow(edges, FlowOf(x), Source)
  {
    var nbs := FirstGpus(|p.gpus|);
    ObjectiveSum(edges, x, |p.gpus|);
    forall j | 0 <= j < |edges| && OutOf(Source)(edges[j]) ensures exists nb :: nb in nbs && EdgeTo(Source)(nb) == edges[j] {
      assert ProperEdge(p, edges[j]);
      assert nbs[edges[j].to.id] == edges[j].to;
      assert EdgeTo(Source)(edges[j].to) == edges[j];
    }
    NeighbourSumIsEdgeSum(edges, nbs, FlowOf(x), EdgeTo(Source), OutOf(Source));
  }
}

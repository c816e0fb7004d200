/**
 Which switches the full system fixes. With every row kept, a switch says exactly whether its
 edge is open, except between two GPUs without partial inference: there an unused switch can
 always be turned off, so it is exact only where no placement opens the edge at all.
 */
module HelixSwitch {
  import opened HelixEncoding
  import opened HelixMeaning
  import opened HelixTheorems

  // ---------- turning a switch off ----------

  function Off(x: Vec, e: Edge): Vec {
    (v: Var) => if v == Switch(e) then 0.0 else x(v)
  }

  ghost predicate Avoids(terms: seq<Term>, v: Var) {
    forall j :: 0 <= j < |terms| ==> terms[j].v != v
  }

  lemma {:induction false} EvalOff(terms: seq<Term>, x: Vec, e: Edge)
    requires Avoids(terms, Switch(e))
    ensures Eval(terms, Off(x, e)) == Eval(terms, x)
  {
    if terms != [] {
      assert terms[0].v != Switch(e);
      assert Avoids(terms[1..], Switch(e));
      EvalOff(terms[1..], x, e);
    }
  }

  lemma {:induction false} HoldTermsAvoid(i: nat, c: nat -> real, lo: nat, n: nat, e: Edge)
    ensures Avoids(HoldTerms(i, c, lo, n), Switch(e))
  {
    if n > 0 {
      HoldTermsAvoid(i, c, lo, n - 1, e);
    }
  }

  lemma {:induction false} EndTermsAvoid(p: Problem, i: nat, e: Edge)
    requires i < |p.gpus|
    ensures Avoids(EndTerms(p, i), Switch(e))
  {
    HoldTermsAvoid(i, Count, 1, p.gpus[i].maxLayers, e);
  }

  lemma {:induction false} FlowTermsAvoid(edges: seq<Edge>, nbs: seq<Node>, edge: Node -> Edge, never: Node, e: Edge)
    ensures Avoids(FlowTerms(edges, nbs, edge, never), Switch(e))
  {
    if nbs != [] {
      FlowTermsAvoid(edges, nbs[1..], edge, never, e);
    }
  }

  lemma {:induction false} NegatedAvoid(terms: seq<Term>, v: Var)
    requires Avoids(terms, v)
    ensures Avoids(Negated(terms), v)
  {
    if terms != [] {
      assert Avoids(terms[1..], v);
      NegatedAvoid(terms[1..], v);
    }
  }

  lemma {:induction false} RowOff(row: Row, x: Vec, e: Edge)
    requires Avoids(row.terms, Switch(e))
    ensures Holds(row, Off(x, e)) <==> Holds(row, x)
  {
    EvalOff(row.terms, x, e);
  }

  lemma {:induction false} GpuRowsOff(p: Problem, edges: seq<Edge>, x: Vec, e: Edge, i: nat)
    requires i < |p.gpus| && GpuBounds(p, x, i) && GpuRowsHold(p, edges, x, i)
    ensures GpuBounds(p, Off(x, e), i) && GpuRowsHold(p, edges, Off(x, e), i)
  {
    hide Eval, Holds, HoldTerms, EndTerms, FlowTerms, Negated, Avoids, Neighbours, GpuThroughput;
    var y, m := Off(x, e), p.gpus[i].maxLayers;
    HoldTermsAvoid(i, One, 1, m, e);
    EndTermsAvoid(p, i, e);
    var ins, outs := InTerms(p, edges, i), OutTerms(p, edges, i);
    FlowTermsAvoid(edges, Neighbours(p.links, Gpu(i)), EdgeFrom(Gpu(i)), Sink, e);
    FlowTermsAvoid(edges, Neighbours(p.links, Gpu(i)), EdgeTo(Gpu(i)), Source, e);
    NegatedAvoid(outs, Switch(e));
    HoldTermsAvoid(i, GpuThroughput(p.gpus[i]), 1, m, e);
    NegatedAvoid(HoldTerms(i, GpuThroughput(p.gpus[i]), 1, m), Switch(e));
    ConcatAvoids(ins, Negated(outs), Switch(e));
    ConcatAvoids(ins, Negated(HoldTerms(i, GpuThroughput(p.gpus[i]), 1, m)), Switch(e));
    assert Holds(PlacementRows(p, i)[0], x) && Holds(PlacementRows(p, i)[1], x);
    RowOff(PlacementRows(p, i)[0], x, e);
    RowOff(PlacementRows(p, i)[1], x, e);
    RowOff(ConservationRow(p, edges, i), x, e);
    RowOff(CapacityRow(p, edges, i), x, e);
    forall k | 1 <= k <= m ensures Binary(y(Hold(i, k))) {
      assert y(Hold(i, k)) == x(Hold(i, k));
    }
  }

  lemma {:induction false} ConcatAvoids(a: seq<Term>, b: seq<Term>, v: Var)
    requires Avoids(a, v) && Avoids(b, v)
    ensures Avoids(a + b, v)
  {
  }

  /** The rows of every other edge do not see the switch. */
  lemma {:induction false} OtherEdgeOff(p: Problem, x: Vec, e: Edge, other: Edge)
    requires !p.partialInference && ProperEdge(p, other) && other != e && EdgeBounds(p, x, other) && EdgeRowsHold(p, x, other)
    ensures EdgeBounds(p, Off(x, e), other) && EdgeRowsHold(p, Off(x, e), other)
  {
    hide AllHold, Eval, EndTerms, EdgeThroughput;
    var y := Off(x, e);
    assert y(Switch(other)) == x(Switch(other)) && y(Flow(other)) == x(Flow(other));
    EvalTwo(Flow(other), 1.0, Switch(other), -EdgeThroughput(p.links, other), x);
    EvalTwo(Flow(other), 1.0, Switch(other), -EdgeThroughput(p.links, other), y);
    if other.from.Gpu? {
      EndTermsAvoid(p, other.from.id, e);
      EvalOff(EndTerms(p, other.from.id), x, e);
    }
    if other.from == Source {
      SourceRowsMean(p, other, x);
      SourceRowsMean(p, other, y);
    } else if other.to == Sink {
      SinkRowsMean(p, other, x);
      SinkRowsMean(p, other, y);
    } else {
      StrictRowsMean(p, other, x);
      StrictRowsMean(p, other, y);
    }
  }

  /** The edge's own rows hold with the switch off when it carries nothing. */
  lemma {:induction false} OwnEdgeOff(p: Problem, x: Vec, pl: Placement, e: Edge)
    requires !p.partialInference && ProperEdge(p, e) && e.from.Gpu? && e.to.Gpu?
    requires PlacementOk(p, pl) && EndsAgree(p, x, pl, e) && x(Flow(e)) == 0.0
    ensures EdgeBounds(p, Off(x, e), e) && EdgeRowsHold(p, Off(x, e), e)
  {
    hide AllHold, Eval, EndTerms, EdgeThroughput, OneHot;
    var y := Off(x, e);
    assert y(Switch(e)) == 0.0 && y(Flow(e)) == 0.0 && y(Start(e.to.id)) == x(Start(e.to.id));
    EvalTwo(Flow(e), 1.0, Switch(e), -EdgeThroughput(p.links, e), y);
    EndTermsAvoid(p, e.from.id, e);
    EvalOff(EndTerms(p, e.from.id), x, e);
    StrictRowsMean(p, e, y);
  }

  lemma {:induction false} SoundEnds(p: Problem, edges: seq<Edge>, x: Vec, e: Edge)
    requires ProperEdges(p, edges) && Feasible(p, edges, x) && ProperEdge(p, e)
    ensures EndsAgree(p, x, Decode(p, x), e)
  {
    hide AllHold, HelixRows, Eval, EndTerms, OneHot, Decode, ProperEdge, PlacementRows, ConservationRow, CapacityRow, EdgeRowsHold;
    RowByRow(p, edges, x);
    EndsKnown(p, e);
    if e.from.Gpu? {
      assert GpuRowsHold(p, edges, x, e.from.id) && GpuBounds(p, x, e.from.id);
      DecodedRange(p, x, e.from.id);
    }
    if e.to.Gpu? {
      assert GpuRowsHold(p, edges, x, e.to.id) && GpuBounds(p, x, e.to.id);
      DecodedRange(p, x, e.to.id);
    }
  }

  lemma {:induction false} EndsKnown(p: Problem, e: Edge)
    requires ProperEdge(p, e)
    ensures (e.from.Gpu? ==> e.from.id < |p.gpus|) && (e.to.Gpu? ==> e.to.id < |p.gpus|)
  {
  }

  /**
   Without partial inference the switch of an edge between GPUs that carries no flow can be
   turned off in every feasible vector, in both modes, whether the edge is open or not.
   */
  lemma {:induction false} SwitchedOffIsFeasible(p: Problem, edges: seq<Edge>, x: Vec, e: Edge)
    requires WellFormed(p) && EdgeList(p, edges) && ProperEdges(p, edges) && Feasible(p, edges, x)
    requires !p.partialInference && e in edges && e.from.Gpu? && e.to.Gpu? && x(Flow(e)) == 0.0
    ensures Feasible(p, edges, Off(x, e)) && Decode(p, Off(x, e)) == Decode(p, x)
    ensures forall d :: FlowOf(Off(x, e))(d) == FlowOf(x)(d)
  {
    hide AllHold, HelixRows, GpuRowsHold, EdgeRowsHold, GpuBounds, EdgeBounds, EdgeList, WellFormed, FlowOk, Chosen, EndsAgree;
    var y := Off(x, e);
    RowByRow(p, edges, x);
    Sound(p, edges, x);
    SoundEnds(p, edges, x, e);
    forall i | 0 <= i < |p.gpus| ensures GpuBounds(p, y, i) && GpuRowsHold(p, edges, y, i) {
      GpuRowsOff(p, edges, x, e, i);
    }
    forall j | 0 <= j < |edges| ensures EdgeBounds(p, y, edges[j]) && EdgeRowsHold(p, y, edges[j]) {
      if edges[j] == e {
        OwnEdgeOff(p, x, Decode(p, x), e);
      } else {
        OtherEdgeOff(p, x, e, edges[j]);
      }
    }
    RowByRow(p, edges, y);
    SameDecode(p, x, e);
  }

  lemma {:induction false} SameDecode(p: Problem, x: Vec, e: Edge)
    ensures Decode(p, Off(x, e)) == Decode(p, x)
  {
    forall i | 0 <= i < |p.gpus|
      ensures Decode(p, Off(x, e)).start[i] == Decode(p, x).start[i] && Decode(p, Off(x, e)).count[i] == Decode(p, x).count[i]
    {
      SameChosen(x, e, i, 1, p.gpus[i].maxLayers);
    }
  }

  lemma {:induction false} SameChosen(x: Vec, e: Edge, i: nat, k: nat, m: int)
    ensures Chosen(Off(x, e), i, k, m) == Chosen(x, i, k, m)
    decreases m + 1 - k
  {
    if k <= m {
      assert Off(x, e)(Hold(i, k)) == x(Hold(i, k));
      SameChosen(x, e, i, k + 1, m);
    }
  }

  // ---------- where an edge can be open ----------

  /** A layer count a GPU can hold in the model, with a throughput that admits no flow at least. */
  predicate Usable(p: Problem, i: nat, k: nat)
    requires i < |p.gpus|
  {
    1 <= k <= p.gpus[i].maxLayers && k <= p.numLayers && GpuThroughput(p.gpus[i])(k) >= 0.0
  }

  ghost predicate Placeable(p: Problem, i: nat)
    requires i < |p.gpus|
  {
    exists k: nat :: Usable(p, i, k)
  }

  /** GPU b can start where GPU a ends, and every GPU has some layer count. */
  ghost predicate CanAbut(p: Problem, a: nat, b: nat)
    requires a < |p.gpus| && b < |p.gpus|
  {
    && a != b
    && (forall i :: 0 <= i < |p.gpus| ==> Placeable(p, i))
    && (exists ka: nat, kb: nat :: Usable(p, a, ka) && Usable(p, b, kb) && ka + kb <= p.numLayers)
  }

  ghost function SomeCount(p: Problem, i: nat): (k: nat)
    requires i < |p.gpus| && Placeable(p, i)
    ensures Usable(p, i, k)
  {
    var k: nat :| Usable(p, i, k);
    k
  }

  /** GPU a from layer 0 on, GPU b right after it, every other GPU from layer 0 on. */
  ghost function Abutting(p: Problem, a: nat, b: nat, ka: nat, kb: nat): (pl: Placement)
    requires a < |p.gpus| && b < |p.gpus| && a != b && (forall i :: 0 <= i < |p.gpus| ==> Placeable(p, i))
    requires Usable(p, a, ka) && Usable(p, b, kb) && ka + kb <= p.numLayers
    ensures PlacementOk(p, pl) && End(pl, a) == pl.start[b]
    ensures forall i :: 0 <= i < |p.gpus| ==> GpuThroughput(p.gpus[i])(pl.count[i]) >= 0.0
  {
    Placement(seq(|p.gpus|, i requires 0 <= i < |p.gpus| => if i == b then ka else 0),
              seq(|p.gpus|, i requires 0 <= i < |p.gpus| && Placeable(p, i) => if i == a then ka else if i == b then kb else SomeCount(p, i)))
  }

  const NoFlow: FlowMap := (e: Edge) => 0.0

  lemma {:induction false} NothingFlows(edges: seq<Edge>, sel: Edge -> bool)
    ensures SumWhere(edges, NoFlow, sel) == 0.0
  {
    if edges != [] {
      NothingFlows(edges[1..], sel);
    }
  }

  lemma {:induction false} RestIsSolution(p: Problem, edges: seq<Edge>, pl: Placement)
    requires WellFormed(p) && ProperEdges(p, edges) && PlacementOk(p, pl)
    requires forall i :: 0 <= i < |p.gpus| ==> GpuThroughput(p.gpus[i])(pl.count[i]) >= 0.0
    ensures Solution(p, edges, pl, NoFlow)
  {
    hide SumWhere, EdgeThroughput, GpuThroughput;
    forall j | 0 <= j < |edges| ensures EdgeFlowOk(p, pl, NoFlow, edges[j]) {
      ThroughputNonNegative(p, edges[j]);
    }
    forall i | 0 <= i < |p.gpus| ensures GpuFlowOk(p, edges, pl, NoFlow, i) {
      NothingFlows(edges, Into(Gpu(i)));
      NothingFlows(edges, OutOf(Gpu(i)));
    }
  }

  /** An edge between GPUs that can be open has a feasible vector in which it is open and switched off. */
  lemma {:induction false} OpenYetOff(p: Problem, edges: seq<Edge>, e: Edge) returns (x: Vec)
    requires WellFormed(p) && EdgeList(p, edges) && ProperEdges(p, edges)
    requires !p.partialInference && e in edges && e.from.Gpu? && e.to.Gpu? && ProperEdge(p, e)
    requires CanAbut(p, e.from.id, e.to.id)
    ensures Feasible(p, edges, x) && Open(p, Decode(p, x), e) && x(Switch(e)) == 0.0
  {
    hide EdgeList, Feasible, Decode, Encode, Solution, PlacementOk;
    var a, b := e.from.id, e.to.id;
    var ka: nat, kb: nat :| Usable(p, a, ka) && Usable(p, b, kb) && ka + kb <= p.numLayers;
    var pl := Abutting(p, a, b, ka, kb);
    RestIsSolution(p, edges, pl);
    Complete(p, edges, pl, NoFlow);
    var full := Encode(p, pl, NoFlow);
    assert FlowOf(full)(e) == 0.0;
    SwitchedOffIsFeasible(p, edges, full, e);
    x := Off(full, e);
  }

  /** A feasible vector that opens the edge shows that its GPUs can abut. */
  lemma {:induction false} OpenCanAbut(p: Problem, edges: seq<Edge>, x: Vec, e: Edge)
    requires WellFormed(p) && EdgeList(p, edges) && ProperEdges(p, edges) && Feasible(p, edges, x)
    requires !p.partialInference && ProperEdge(p, e) && e.from.Gpu? && e.to.Gpu? && Open(p, Decode(p, x), e)
    ensures CanAbut(p, e.from.id, e.to.id)
  {
    hide Feasible, EdgeList, Decode, SumWhere, GpuThroughput, EdgeThroughput, WellFormed;
    Sound(p, edges, x);
    var pl := Decode(p, x);
    forall i | 0 <= i < |p.gpus| ensures Usable(p, i, pl.count[i]) && Placeable(p, i) {
      assert GpuFlowOk(p, edges, pl, FlowOf(x), i);
      InflowNonNegative(p, edges, pl, FlowOf(x), Gpu(i));
    }
    assert Usable(p, e.from.id, pl.count[e.from.id]) && Usable(p, e.to.id, pl.count[e.to.id]);
  }

  lemma {:induction false} InflowNonNegative(p: Problem, edges: seq<Edge>, pl: Placement, f: FlowMap, n: Node)
    requires ProperEdges(p, edges) && Sized(p, pl) && forall j :: 0 <= j < |edges| ==> EdgeFlowOk(p, pl, f, edges[j])
    ensures Inflow(edges, f, n) >= 0.0
  {
    if edges != [] {
      assert EdgeFlowOk(p, pl, f, edges[0]);
      InflowNonNegative(p, edges[1..], pl, f, n);
    }
  }

  ghost predicate SwitchExact(p: Problem, edges: seq<Edge>, e: Edge)
    requires ProperEdges(p, edges) && ProperEdge(p, e)
  {
    forall x: Vec :: Feasible(p, edges, x) ==> (x(Switch(e)) == 1.0 <==> Open(p, Decode(p, x), e))
  }

  lemma {:induction false} OnIsOpen(p: Problem, edges: seq<Edge>, x: Vec, j: nat)
    requires WellFormed(p) && EdgeList(p, edges) && ProperEdges(p, edges) && Feasible(p, edges, x) && j < |edges|
    ensures x(Switch(edges[j])) == 1.0 ==> Open(p, Decode(p, x), edges[j])
  {
    hide AllHold, HelixRows, GpuRowsHold, GpuBounds, EndsAgree, EdgeList, WellFormed, Open, Decode, SwitchRows, ProperEdge, FlowOk;
    Sound(p, edges, x);
    RowByRow(p, edges, x);
    assert EdgeRowsHold(p, x, edges[j]) && EdgeBounds(p, x, edges[j]) && ProperEdge(p, edges[j]);
    SoundEnds(p, edges, x, edges[j]);
    if x(Switch(edges[j])) == 1.0 {
      SwitchedOnIsOpen(p, x, Decode(p, x), edges[j]);
    }
  }

  /**
   The exact reach of the full system: the switch of an edge says, in every feasible vector,
   whether the edge is open, if and only if partial inference is allowed, or the edge starts
   at the source or ends at the sink, or its two GPUs cannot be placed end to end.
   */
  lemma {:induction false} SwitchExactly(p: Problem, edges: seq<Edge>, j: nat)
    requires WellFormed(p) && EdgeList(p, edges) && ProperEdges(p, edges) && j < |edges| && !p.removeRedundant
    ensures var e := edges[j];
            && ProperEdge(p, e)
            && (SwitchExact(p, edges, e) <==>
                p.partialInference || e.from == Source || e.to == Sink || !CanAbut(p, e.from.id, e.to.id))
  {
    hide Feasible, EdgeList, Decode, CanAbut, Open, WellFormed;
    var e := edges[j];
    assert ProperEdge(p, e);
    if p.partialInference || e.from == Source || e.to == Sink {
      forall x: Vec | Feasible(p, edges, x) ensures x(Switch(e)) == 1.0 <==> Open(p, Decode(p, x), e) {
        FullSwitchIsExact(p, edges, x, j);
      }
    } else if CanAbut(p, e.from.id, e.to.id) {
      var x := OpenYetOff(p, edges, e);
    } else {
      forall x: Vec | Feasible(p, edges, x) ensures x(Switch(e)) == 1.0 <==> Open(p, Decode(p, x), e) {
        OnIsOpen(p, edges, x, j);
        if Open(p, Decode(p, x), e) {
          OpenCanAbut(p, edges, x, e);
        }
      }
    }
  }

  /** Two GPUs with one layer each, joined by a link, for a model of two layers. */
  const TwoGpus: Problem :=
    Problem(2, [GpuSpec(1, map[1 := 1.0]), GpuSpec(1, map[1 := 1.0])], [Link(Gpu(0), Gpu(1), 1.0)], false, false)

  /** A concrete case: the full system of two GPUs lets the edge between them be open and switched off. */
  lemma {:induction false} TwoGpusSwitchOff() returns (x: Vec)
    ensures var e := Edge(Gpu(0), Gpu(1)); var edges := [e, Edge(Gpu(1), Gpu(0))];
            && EdgeList(TwoGpus, edges) && ProperEdges(TwoGpus, edges) && ProperEdge(TwoGpus, e)
            && Feasible(TwoGpus, edges, x) && Open(TwoGpus, Decode(TwoGpus, x), e) && x(Switch(e)) == 0.0
  {
    var e := Edge(Gpu(0), Gpu(1));
    var edges := [e, Edge(Gpu(1), Gpu(0))];
    forall d ensures d in edges <==> IsEdge(TwoGpus.links, d) {
      assert d in edges <==> Yields(TwoGpus.links[0], d);
    }
    assert Usable(TwoGpus, 0, 1) && Usable(TwoGpus, 1, 1);
    forall i | 0 <= i < 2 ensures Placeable(TwoGpus, i) {
      assert Usable(TwoGpus, i, 1);
    }
    x := OpenYetOff(TwoGpus, edges, e);
  }
}

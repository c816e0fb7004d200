/**
 The Helix max-flow placement problem and the linear system it is compiled to.

 A vector assigns a real to every named variable. The system is the list of rows the
 compiler emits, in the order it emits them, plus the bounds and integrality marks of the
 variables. The solver is not modelled: theorems quantify over all vectors.
 */
module HelixEncoding {
  import opened Wrappers
  import opened Counting

  datatype Node = Source | Sink | Gpu(id: nat)

  datatype Edge = Edge(from: Node, to: Node)

  datatype GpuSpec = GpuSpec(maxLayers: nat, throughput: map<nat, real>)

  datatype Link = Link(from: Node, to: Node, throughput: real)

  datatype Problem = Problem(
    numLayers: nat,
    gpus: seq<GpuSpec>,
    links: seq<Link>,
    partialInference: bool,
    removeRedundant: bool)

  datatype Var =
    | Start(i: nat)
    | Hold(i: nat, k: nat)
    | Flow(e: Edge)
    | Switch(e: Edge)
    | Cond1(e: Edge)
    | Cond2(e: Edge)
    | Bottleneck

  type Vec = Var -> real

  // ---------- the graph ----------

  predicate KnownNode(p: Problem, n: Node) {
    n.Gpu? ==> n.id < |p.gpus|
  }

  /** Links between known nodes, none joining source and sink directly, none with negative throughput. */
  predicate WellFormed(p: Problem) {
    && p.numLayers >= 1
    && (forall i :: 0 <= i < |p.gpus| ==> p.gpus[i].maxLayers >= 1)
    && (forall j :: 0 <= j < |p.links| ==>
          && KnownNode(p, p.links[j].from) && KnownNode(p, p.links[j].to)
          && p.links[j].throughput >= 0.0
          && (p.links[j].from.Gpu? || p.links[j].to.Gpu?))
  }

  /** Whether a link yields the directed edge `e`: along it, or against it between two GPUs and at the terminals. */
  predicate Yields(link: Link, e: Edge) {
    || (link.from != Sink && link.to != Source && e == Edge(link.from, link.to))
    || (link.to != Sink && link.from != Source && e == Edge(link.to, link.from))
  }

  ghost predicate IsEdge(links: seq<Link>, e: Edge) {
    exists j :: 0 <= j < |links| && Yields(links[j], e)
  }

  /** `edges` lists the directed edges in some order, each once. */
  ghost predicate EdgeList(p: Problem, edges: seq<Edge>) {
    Distinct(edges) && forall e :: e in edges <==> IsEdge(p.links, e)
  }

  /** The throughput recorded last for exactly this pair of nodes. */
  function Recorded(links: seq<Link>, from: Node, to: Node): Option<real> {
    if links == [] then None
    else
      var last := links[|links| - 1];
      if last.from == from && last.to == to then Some(last.throughput)
      else Recorded(links[..|links| - 1], from, to)
  }

  /** An edge's own link, or else the link in the other direction. */
  function EdgeThroughput(links: seq<Link>, e: Edge): real {
    match Recorded(links, e.from, e.to)
    case Some(throughput) => throughput
    case None =>
      match Recorded(links, e.to, e.from)
      case Some(throughput) => throughput
      case None => 0.0
  }

  predicate Joins(link: Link, from: Node, to: Node) {
    link.from == from && link.to == to
  }

  /** Link `j` is the last one that leads from `from` to `to`. */
  ghost predicate LastLink(links: seq<Link>, j: nat, from: Node, to: Node) {
    j < |links| && Joins(links[j], from, to) && forall i :: j < i < |links| ==> !Joins(links[i], from, to)
  }

  ghost predicate NoLink(links: seq<Link>, from: Node, to: Node) {
    forall i :: 0 <= i < |links| ==> !Joins(links[i], from, to)
  }

  /**
   The throughput of the last link that leads along the edge. When no link does, that of the
   last one that leads against it.
   */
  ghost predicate HasThroughput(links: seq<Link>, e: Edge, throughput: real) {
    && (forall j: nat :: LastLink(links, j, e.from, e.to) ==> throughput == links[j].throughput)
    && (NoLink(links, e.from, e.to) ==>
          forall j: nat :: LastLink(links, j, e.to, e.from) ==> throughput == links[j].throughput)
    && (NoLink(links, e.from, e.to) && NoLink(links, e.to, e.from) ==> throughput == 0.0)
  }

  lemma {:induction false} RecordedByIndex(links: seq<Link>, from: Node, to: Node)
    ensures Recorded(links, from, to).None? <==> NoLink(links, from, to)
    ensures forall j: nat :: LastLink(links, j, from, to) ==> Recorded(links, from, to) == Some(links[j].throughput)
  {
    if links != [] {
      var last := |links| - 1;
      RecordedByIndex(links[..last], from, to);
      LastOfLinks(links, from, to);
      hide NoLink, LastLink;
      assert Recorded(links, from, to)
          == if Joins(links[last], from, to) then Some(links[last].throughput) else Recorded(links[..last], from, to);
    }
  }

  lemma {:induction false} LastOfLinks(links: seq<Link>, from: Node, to: Node)
    requires links != []
    ensures var last := |links| - 1;
            && (NoLink(links, from, to) <==> NoLink(links[..last], from, to) && !Joins(links[last], from, to))
            && (forall j: nat :: LastLink(links, j, from, to) ==>
                  if Joins(links[last], from, to) then j == last else LastLink(links[..last], j, from, to) && links[..last][j] == links[j])
  {
  }

  lemma {:induction false} ThroughputByIndex(links: seq<Link>, e: Edge)
    ensures HasThroughput(links, e, EdgeThroughput(links, e))
  {
    hide Recorded, LastLink, NoLink;
    RecordedByIndex(links, e.from, e.to);
    RecordedByIndex(links, e.to, e.from);
  }

  /** An edge leads between two linked nodes, in either direction, but not out of the sink nor into the source. */
  lemma {:induction false} EdgesFollowLinks(links: seq<Link>, e: Edge)
    ensures IsEdge(links, e) <==>
              e.from != Sink && e.to != Source && !(NoLink(links, e.from, e.to) && NoLink(links, e.to, e.from))
  {
    if IsEdge(links, e) {
      var j :| 0 <= j < |links| && Yields(links[j], e);
      assert Joins(links[j], e.from, e.to) || Joins(links[j], e.to, e.from);
    } else if !NoLink(links, e.from, e.to) {
      var j :| 0 <= j < |links| && Joins(links[j], e.from, e.to);
      assert !Yields(links[j], e);
    } else if !NoLink(links, e.to, e.from) {
      var j :| 0 <= j < |links| && Joins(links[j], e.to, e.from);
      assert !Yields(links[j], e);
    }
  }

  function WithNeighbour(list: seq<Node>, n: Node): seq<Node> {
    if n in list then list else list + [n]
  }

  /** The neighbours of `n`, in the order the links mention them. */
  function Neighbours(links: seq<Link>, n: Node): seq<Node> {
    if links == [] then []
    else
      var last := links[|links| - 1];
      var before := Neighbours(links[..|links| - 1], n);
      var along := if last.from == n then WithNeighbour(before, last.to) else before;
      if last.to == n then WithNeighbour(along, last.from) else along
  }

  function GpuThroughput(spec: GpuSpec): nat -> real {
    (k: nat) => if k in spec.throughput then spec.throughput[k] else 0.0
  }

  // ---------- linear rows ----------

  datatype Term = Term(v: Var, c: real)

  datatype Row = Row(terms: seq<Term>, lo: Option<real>, hi: Option<real>)

  function Eval(terms: seq<Term>, x: Vec): real {
    if terms == [] then 0.0 else terms[0].c * x(terms[0].v) + Eval(terms[1..], x)
  }

  predicate Holds(row: Row, x: Vec) {
    && (row.lo.Some? ==> row.lo.value <= Eval(row.terms, x))
    && (row.hi.Some? ==> Eval(row.terms, x) <= row.hi.value)
  }

  predicate AllHold(rows: seq<Row>, x: Vec) {
    forall i :: 0 <= i < |rows| ==> Holds(rows[i], x)
  }

  function Eq(terms: seq<Term>, rhs: real): Row { Row(terms, Some(rhs), Some(rhs)) }
  function Leq(terms: seq<Term>, rhs: real): Row { Row(terms, None, Some(rhs)) }
  function Geq(terms: seq<Term>, rhs: real): Row { Row(terms, Some(rhs), None) }

  function Negated(terms: seq<Term>): (r: seq<Term>) {
    if terms == [] then [] else [Term(terms[0].v, -terms[0].c)] + Negated(terms[1..])
  }

  lemma {:induction false} NegatedAppend(terms: seq<Term>, t: Term)
    ensures Negated(terms + [t]) == Negated(terms) + [Term(t.v, -t.c)]
  {
    if terms == [] {
      assert [t][1..] == [];
    } else {
      NegatedAppend(terms[1..], t);
      assert (terms + [t])[1..] == terms[1..] + [t];
    }
  }

  /** c(k) * Hold(i, k) for the n layer counts k = lo, lo + 1, ... */
  function HoldTerms(i: nat, c: nat -> real, lo: nat, n: nat): seq<Term> {
    if n == 0 then [] else HoldTerms(i, c, lo, n - 1) + [Term(Hold(i, lo + n - 1), c(lo + n - 1))]
  }

  const One: nat -> real := (k: nat) => 1.0
  const Count: nat -> real := (k: nat) => k as real

  /** The last layer of GPU i, exclusive: start plus the number of layers held. */
  function EndTerms(p: Problem, i: nat): seq<Term>
    requires i < |p.gpus|
  {
    [Term(Start(i), 1.0)] + HoldTerms(i, Count, 1, p.gpus[i].maxLayers)
  }

  // ---------- the rows of the system ----------

  function PlacementRows(p: Problem, i: nat): seq<Row>
    requires i < |p.gpus|
  {
    [Eq(HoldTerms(i, One, 1, p.gpus[i].maxLayers), 1.0), Leq(EndTerms(p, i), p.numLayers as real)]
  }

  function EdgeFrom(to: Node): Node -> Edge { (nb: Node) => Edge(nb, to) }
  function EdgeTo(from: Node): Node -> Edge { (nb: Node) => Edge(from, nb) }

  /** Flow terms for the neighbours that have a flow variable on the edge to (or from) them. */
  function FlowTerms(edges: seq<Edge>, nbs: seq<Node>, edge: Node -> Edge, never: Node): seq<Term> {
    if nbs == [] then []
    else
      (if nbs[0] != never && edge(nbs[0]) in edges then [Term(Flow(edge(nbs[0])), 1.0)] else [])
      + FlowTerms(edges, nbs[1..], edge, never)
  }

  function InTerms(p: Problem, edges: seq<Edge>, i: nat): seq<Term> {
    FlowTerms(edges, Neighbours(p.links, Gpu(i)), EdgeFrom(Gpu(i)), Sink)
  }

  function OutTerms(p: Problem, edges: seq<Edge>, i: nat): seq<Term> {
    FlowTerms(edges, Neighbours(p.links, Gpu(i)), EdgeTo(Gpu(i)), Source)
  }

  function ConservationRow(p: Problem, edges: seq<Edge>, i: nat): Row {
    Eq(InTerms(p, edges, i) + Negated(OutTerms(p, edges, i)), 0.0)
  }

  function CapacityRow(p: Problem, edges: seq<Edge>, i: nat): Row
    requires i < |p.gpus|
  {
    Leq(InTerms(p, edges, i) + Negated(HoldTerms(i, GpuThroughput(p.gpus[i]), 1, p.gpus[i].maxLayers)), 0.0)
  }

  /** A row that maximisation makes redundant, unless those are removed, and one that is always there. */
  function WithOptional(remove: bool, optional: Row, row: Row): seq<Row> {
    if remove then [row] else [optional, row]
  }

  function SourceRows(p: Problem, e: Edge): seq<Row>
    requires e.to.Gpu?
  {
    var L := p.numLayers as real;
    WithOptional(p.removeRedundant,
                 Geq([Term(Switch(e), 1.0), Term(Start(e.to.id), 1.0)], 1.0),
                 Leq([Term(Start(e.to.id), 1.0), Term(Switch(e), L)], L))
  }

  function SinkRows(p: Problem, e: Edge): seq<Row>
    requires e.from.Gpu? && e.from.id < |p.gpus|
  {
    var L := p.numLayers as real;
    var end := Negated(EndTerms(p, e.from.id));
    WithOptional(p.removeRedundant,
                 Geq([Term(Switch(e), L - 1.0)] + end, -(L - 1.0)),
                 Leq([Term(Switch(e), L)] + end, 0.0))
  }

  function PartialRows(p: Problem, e: Edge): seq<Row>
    requires e.from.Gpu? && e.to.Gpu? && e.from.id < |p.gpus| && e.to.id < |p.gpus|
  {
    var M := p.numLayers as real + 1.0;
    var endA, endB, startB := EndTerms(p, e.from.id), EndTerms(p, e.to.id), Start(e.to.id);
    WithOptional(p.removeRedundant,
                 Geq([Term(Cond1(e), M)] + Negated(endA) + [Term(startB, 1.0)], 1.0),
                 Geq([Term(Cond1(e), -M), Term(startB, -1.0)] + endA, -M))
    + WithOptional(p.removeRedundant,
                   Geq([Term(Cond2(e), M)] + Negated(endB) + endA, 0.0),
                   Geq([Term(Cond2(e), -M)] + endB + Negated(endA), 1.0 - M))
    + WithOptional(p.removeRedundant,
                   Leq([Term(Cond1(e), 1.0), Term(Cond2(e), 1.0), Term(Switch(e), -1.0)], 1.0),
                   Leq([Term(Switch(e), 2.0), Term(Cond1(e), -1.0), Term(Cond2(e), -1.0)], 0.0))
  }

  function StrictRows(p: Problem, e: Edge): seq<Row>
    requires e.from.Gpu? && e.to.Gpu? && e.from.id < |p.gpus| && e.to.id < |p.gpus|
  {
    var L := p.numLayers as real;
    var endA, startB := EndTerms(p, e.from.id), Start(e.to.id);
    [Leq([Term(Switch(e), L), Term(startB, -1.0)] + endA, L),
     Leq([Term(Switch(e), L), Term(startB, 1.0)] + Negated(endA), L)]
  }

  predicate ProperEdge(p: Problem, e: Edge) {
    && e.from != Sink && e.to != Source && (e.from.Gpu? || e.to.Gpu?)
    && KnownNode(p, e.from) && KnownNode(p, e.to)
  }

  function SwitchRows(p: Problem, e: Edge): seq<Row>
    requires ProperEdge(p, e)
  {
    if e.from == Source then SourceRows(p, e)
    else if e.to == Sink then SinkRows(p, e)
    else if p.partialInference then PartialRows(p, e)
    else StrictRows(p, e)
  }

  function FlowRow(p: Problem, e: Edge): Row {
    Leq([Term(Flow(e), 1.0), Term(Switch(e), -EdgeThroughput(p.links, e))], 0.0)
  }

  function AllPlacementRows(p: Problem, n: nat): seq<Row>
    requires n <= |p.gpus|
  {
    if n == 0 then [] else AllPlacementRows(p, n - 1) + PlacementRows(p, n - 1)
  }

  function AllConservationRows(p: Problem, edges: seq<Edge>, n: nat): seq<Row> {
    if n == 0 then [] else AllConservationRows(p, edges, n - 1) + [ConservationRow(p, edges, n - 1)]
  }

  function AllCapacityRows(p: Problem, edges: seq<Edge>, n: nat): seq<Row>
    requires n <= |p.gpus|
  {
    if n == 0 then [] else AllCapacityRows(p, edges, n - 1) + [CapacityRow(p, edges, n - 1)]
  }

  predicate ProperEdges(p: Problem, edges: seq<Edge>) {
    forall j :: 0 <= j < |edges| ==> ProperEdge(p, edges[j])
  }

  function AllSwitchRows(p: Problem, edges: seq<Edge>, n: nat): seq<Row>
    requires n <= |edges| && ProperEdges(p, edges)
  {
    if n == 0 then [] else AllSwitchRows(p, edges, n - 1) + SwitchRows(p, edges[n - 1])
  }

  function AllFlowRows(p: Problem, edges: seq<Edge>, n: nat): seq<Row>
    requires n <= |edges|
  {
    if n == 0 then [] else AllFlowRows(p, edges, n - 1) + [FlowRow(p, edges[n - 1])]
  }

  function HelixRows(p: Problem, edges: seq<Edge>): seq<Row>
    requires ProperEdges(p, edges)
  {
    AllPlacementRows(p, |p.gpus|)
    + AllConservationRows(p, edges, |p.gpus|)
    + AllCapacityRows(p, edges, |p.gpus|)
    + AllSwitchRows(p, edges, |edges|)
    + AllFlowRows(p, edges, |edges|)
  }

  // ---------- bounds and integrality ----------

  predicate Integral(r: real) {
    r == r.Floor as real
  }

  predicate Binary(r: real) {
    0.0 <= r <= 1.0 && Integral(r)
  }

  ghost predicate GpuBounds(p: Problem, x: Vec, i: nat)
    requires i < |p.gpus|
  {
    && 0.0 <= x(Start(i)) <= (if p.removeRedundant then p.numLayers as real else p.numLayers as real - 1.0)
    && Integral(x(Start(i)))
    && (forall k :: 1 <= k <= p.gpus[i].maxLayers ==> Binary(x(Hold(i, k))))
  }

  ghost predicate EdgeBounds(p: Problem, x: Vec, e: Edge) {
    && x(Flow(e)) >= 0.0
    && Binary(x(Switch(e)))
    && (p.partialInference && e.from.Gpu? && e.to.Gpu? ==> Binary(x(Cond1(e))) && Binary(x(Cond2(e))))
  }

  ghost predicate WithinBounds(p: Problem, edges: seq<Edge>, x: Vec) {
    && (forall i :: 0 <= i < |p.gpus| ==> GpuBounds(p, x, i))
    && (forall j :: 0 <= j < |edges| ==> EdgeBounds(p, x, edges[j]))
  }

  /** What the solver is asked to satisfy. */
  ghost predicate Feasible(p: Problem, edges: seq<Edge>, x: Vec)
    requires ProperEdges(p, edges)
  {
    WithinBounds(p, edges, x) && AllHold(HelixRows(p, edges), x)
  }

  /** What the solver is asked to maximise: the flow out of the source, GPU by GPU. */
  function Objective(edges: seq<Edge>, x: Vec, n: nat): real {
    if n == 0 then 0.0
    else Objective(edges, x, n - 1) + (if Edge(Source, Gpu(n - 1)) in edges then x(Flow(Edge(Source, Gpu(n - 1)))) else 0.0)
  }

  lemma {:induction false} EdgesAreProper(p: Problem, edges: seq<Edge>)
    requires WellFormed(p) && EdgeList(p, edges)
    ensures ProperEdges(p, edges)
  {
    forall j | 0 <= j < |edges| ensures ProperEdge(p, edges[j]) {
      assert edges[j] in edges;
      var k :| 0 <= k < |p.links| && Yields(p.links[k], edges[j]);
    }
  }

  // ---------- evaluating rows ----------

  lemma {:induction false} EvalConcat(a: seq<Term>, b: seq<Term>, x: Vec)
    ensures Eval(a + b, x) == Eval(a, x) + Eval(b, x)
  {
    if a == [] {
      assert a + b == b;
    } else {
      assert (a + b)[1..] == a[1..] + b;
      EvalConcat(a[1..], b, x);
    }
  }

  lemma {:induction false} EvalNegated(terms: seq<Term>, x: Vec)
    ensures Eval(Negated(terms), x) == -Eval(terms, x)
  {
    if terms != [] {
      var rest := Negated(terms[1..]);
      assert ([Term(terms[0].v, -terms[0].c)] + rest)[1..] == rest;
      EvalNegated(terms[1..], x);
    }
  }

  lemma {:induction false} EvalOne(v: Var, c: real, x: Vec)
    ensures Eval([Term(v, c)], x) == c * x(v)
  {
    var one := [Term(v, c)];
    assert one[1..] == [];
  }

  lemma {:induction false} EvalTwo(v: Var, c: real, w: Var, d: real, x: Vec)
    ensures Eval([Term(v, c), Term(w, d)], x) == c * x(v) + d * x(w)
  {
    assert [Term(v, c), Term(w, d)] == [Term(v, c)] + [Term(w, d)];
    EvalConcat([Term(v, c)], [Term(w, d)], x);
    EvalOne(v, c, x);
    EvalOne(w, d, x);
  }

  lemma {:induction false} EvalThree(v: Var, c: real, w: Var, d: real, u: Var, f: real, x: Vec)
    ensures Eval([Term(v, c), Term(w, d), Term(u, f)], x) == c * x(v) + d * x(w) + f * x(u)
  {
    assert [Term(v, c), Term(w, d), Term(u, f)] == [Term(v, c), Term(w, d)] + [Term(u, f)];
    EvalConcat([Term(v, c), Term(w, d)], [Term(u, f)], x);
    EvalTwo(v, c, w, d, x);
    EvalOne(u, f, x);
  }

  lemma {:induction false} AllHoldConcat(a: seq<Row>, b: seq<Row>, x: Vec)
    ensures AllHold(a + b, x) <==> AllHold(a, x) && AllHold(b, x)
  {
    if AllHold(a + b, x) {
      forall i | 0 <= i < |a| ensures Holds(a[i], x) {
        assert (a + b)[i] == a[i];
      }
      forall i | 0 <= i < |b| ensures Holds(b[i], x) {
        assert (a + b)[|a| + i] == b[i];
      }
    }
  }

  lemma {:induction false} SplitPlacementRows(p: Problem, x: Vec, n: nat)
    requires n <= |p.gpus|
    ensures AllHold(AllPlacementRows(p, n), x) <==> forall i :: 0 <= i < n ==> AllHold(PlacementRows(p, i), x)
  {
    hide AllHold, Holds, PlacementRows;
    if n == 0 {
      NoRows(x);
    } else {
      AllHoldConcat(AllPlacementRows(p, n - 1), PlacementRows(p, n - 1), x);
      SplitPlacementRows(p, x, n - 1);
    }
  }

  lemma {:induction false} NoRows(x: Vec)
    ensures AllHold([], x)
  {
  }

  lemma {:induction false} OneRow(row: Row, x: Vec)
    ensures AllHold([row], x) <==> Holds(row, x)
  {
    assert [row][0] == row;
  }

  lemma {:induction false} SplitConservationRows(p: Problem, edges: seq<Edge>, x: Vec, n: nat)
    ensures AllHold(AllConservationRows(p, edges, n), x) <==> forall i :: 0 <= i < n ==> Holds(ConservationRow(p, edges, i), x)
  {
    hide AllHold, Holds, ConservationRow;
    if n == 0 {
      NoRows(x);
    } else {
      AllHoldConcat(AllConservationRows(p, edges, n - 1), [ConservationRow(p, edges, n - 1)], x);
      OneRow(ConservationRow(p, edges, n - 1), x);
      SplitConservationRows(p, edges, x, n - 1);
    }
  }

  lemma {:induction false} SplitCapacityRows(p: Problem, edges: seq<Edge>, x: Vec, n: nat)
    requires n <= |p.gpus|
    ensures AllHold(AllCapacityRows(p, edges, n), x) <==> forall i :: 0 <= i < n ==> Holds(CapacityRow(p, edges, i), x)
  {
    hide AllHold, Holds, CapacityRow;
    if n == 0 {
      NoRows(x);
    } else {
      AllHoldConcat(AllCapacityRows(p, edges, n - 1), [CapacityRow(p, edges, n - 1)], x);
      OneRow(CapacityRow(p, edges, n - 1), x);
      SplitCapacityRows(p, edges, x, n - 1);
    }
  }

  lemma {:induction false} SplitSwitchRows(p: Problem, edges: seq<Edge>, x: Vec, n: nat)
    requires n <= |edges| && ProperEdges(p, edges)
    ensures AllHold(AllSwitchRows(p, edges, n), x) <==> forall j :: 0 <= j < n ==> AllHold(SwitchRows(p, edges[j]), x)
  {
    hide AllHold, Holds, SwitchRows, ProperEdge;
    if n == 0 {
      NoRows(x);
    } else {
      AllHoldConcat(AllSwitchRows(p, edges, n - 1), SwitchRows(p, edges[n - 1]), x);
      SplitSwitchRows(p, edges, x, n - 1);
    }
  }

  lemma {:induction false} SplitFlowRows(p: Problem, edges: seq<Edge>, x: Vec, n: nat)
    requires n <= |edges|
    ensures AllHold(AllFlowRows(p, edges, n), x) <==> forall j :: 0 <= j < n ==> Holds(FlowRow(p, edges[j]), x)
  {
    hide AllHold, Holds, FlowRow;
    if n == 0 {
      NoRows(x);
    } else {
      AllHoldConcat(AllFlowRows(p, edges, n - 1), [FlowRow(p, edges[n - 1])], x);
      OneRow(FlowRow(p, edges[n - 1]), x);
      SplitFlowRows(p, edges, x, n - 1);
    }
  }

  ghost predicate GpuRowsHold(p: Problem, edges: seq<Edge>, x: Vec, i: nat)
    requires i < |p.gpus|
  {
    AllHold(PlacementRows(p, i), x) && Holds(ConservationRow(p, edges, i), x) && Holds(CapacityRow(p, edges, i), x)
  }

  ghost predicate EdgeRowsHold(p: Problem, x: Vec, e: Edge)
    requires ProperEdge(p, e)
  {
    AllHold(SwitchRows(p, e), x) && Holds(FlowRow(p, e), x)
  }

  /** The system holds when and only when the rows of each GPU and of each edge hold. */
  lemma {:induction false} RowByRow(p: Problem, edges: seq<Edge>, x: Vec)
    requires ProperEdges(p, edges)
    ensures AllHold(HelixRows(p, edges), x) <==>
              && (forall i :: 0 <= i < |p.gpus| ==> GpuRowsHold(p, edges, x, i))
              && (forall j :: 0 <= j < |edges| ==> EdgeRowsHold(p, x, edges[j]))
  {
    var n, m := |p.gpus|, |edges|;
    hide AllHold, Holds, PlacementRows, ConservationRow, CapacityRow, SwitchRows, FlowRow;
    var a, b, c, d, e := AllPlacementRows(p, n), AllConservationRows(p, edges, n), AllCapacityRows(p, edges, n),
                         AllSwitchRows(p, edges, m), AllFlowRows(p, edges, m);
    AllHoldConcat(a + b + c + d, e, x);
    AllHoldConcat(a + b + c, d, x);
    AllHoldConcat(a + b, c, x);
    AllHoldConcat(a, b, x);
    SplitPlacementRows(p, x, n);
    SplitConservationRows(p, edges, x, n);
    SplitCapacityRows(p, edges, x, n);
    SplitSwitchRows(p, edges, x, m);
    SplitFlowRows(p, edges, x, m);
    if AllHold(HelixRows(p, edges), x) {
      assert forall i :: 0 <= i < n ==> GpuRowsHold(p, edges, x, i);
      assert forall j :: 0 <= j < m ==> EdgeRowsHold(p, x, edges[j]);
    }
    if (forall i :: 0 <= i < n ==> GpuRowsHold(p, edges, x, i)) && (forall j :: 0 <= j < m ==> EdgeRowsHold(p, x, edges[j])) {
      forall i | 0 <= i < n
        ensures AllHold(PlacementRows(p, i), x) && Holds(ConservationRow(p, edges, i), x) && Holds(CapacityRow(p, edges, i), x)
      {
        assert GpuRowsHold(p, edges, x, i);
      }
      forall j | 0 <= j < m ensures AllHold(SwitchRows(p, edges[j]), x) && Holds(FlowRow(p, edges[j]), x) {
        assert EdgeRowsHold(p, x, edges[j]);
      }
    }
  }
}

/**
 How the system is put together and taken apart: the registry of named variables, the dense
 constraint rows, the loops that declare variables and emit rows, and the loops that read a
 solver's vector back.
 */
module HelixObjects {
  import opened Wrappers
  import opened Counting
  import opened HelixEncoding
  import opened HelixMeaning
  import opened HelixTheorems

  // ---------- variables ----------

  /** A declared variable with its bounds (no upper bound is infinity) and integrality mark. */
  datatype Decl = Decl(v: Var, lo: real, hi: Option<real>, integral: bool)

  ghost predicate DeclHolds(d: Decl, x: Vec) {
    d.lo <= x(d.v) && (d.hi.Some? ==> x(d.v) <= d.hi.value) && (d.integral ==> Integral(x(d.v)))
  }

  ghost predicate DeclsHold(decls: seq<Decl>, x: Vec) {
    forall j :: 0 <= j < |decls| ==> DeclHolds(decls[j], x)
  }

  function StartDecls(p: Problem, n: nat): seq<Decl> {
    if n == 0 then []
    else StartDecls(p, n - 1) + [Decl(Start(n - 1), 0.0, Some(if p.removeRedundant then p.numLayers as real else p.numLayers as real - 1.0), true)]
  }

  function BinaryDecl(v: Var): Decl { Decl(v, 0.0, Some(1.0), true) }

  function HoldDeclsOf(i: nat, m: nat): seq<Decl> {
    if m == 0 then [] else HoldDeclsOf(i, m - 1) + [BinaryDecl(Hold(i, m))]
  }

  function HoldDecls(p: Problem, n: nat): seq<Decl>
    requires n <= |p.gpus|
  {
    if n == 0 then [] else HoldDecls(p, n - 1) + HoldDeclsOf(n - 1, p.gpus[n - 1].maxLayers)
  }

  function EdgeDecls(edges: seq<Edge>, n: nat): seq<Decl>
    requires n <= |edges|
  {
    if n == 0 then []
    else EdgeDecls(edges, n - 1) + [Decl(Flow(edges[n - 1]), 0.0, None, false), BinaryDecl(Switch(edges[n - 1]))]
  }

  function CondDecls(p: Problem, edges: seq<Edge>, n: nat): seq<Decl>
    requires n <= |edges|
  {
    if n == 0 then []
    else if p.partialInference && edges[n - 1].from.Gpu? && edges[n - 1].to.Gpu? then
      CondDecls(p, edges, n - 1) + [BinaryDecl(Cond1(edges[n - 1])), BinaryDecl(Cond2(edges[n - 1]))]
    else CondDecls(p, edges, n - 1)
  }

  function Declarations(p: Problem, edges: seq<Edge>): seq<Decl> {
    StartDecls(p, |p.gpus|) + HoldDecls(p, |p.gpus|) + EdgeDecls(edges, |edges|) + CondDecls(p, edges, |edges|)
  }

  /** Names get indices 0, 1, 2, ... in the order they are declared, and no name twice. */
  class VarRegistry {
    var names: map<Var, nat>
    var entries: seq<Decl>

    ghost predicate Valid()
      reads this
    {
      && (forall i :: 0 <= i < |entries| ==> entries[i].v in names && names[entries[i].v] == i)
      && (forall v <- names :: names[v] < |entries| && entries[names[v]].v == v)
    }

    constructor ()
      ensures Valid() && entries == [] && names == map[]
    {
      names, entries := map[], [];
    }

    method Alloc(d: Decl) returns (idx: Option<nat>)
      requires Valid()
      modifies this
      ensures Valid()
      ensures d.v in old(names) ==> idx.None? && entries == old(entries) && names == old(names)
      ensures d.v !in old(names) ==>
                idx == Some(|old(entries)|) && entries == old(entries) + [d] && names == old(names)[d.v := |old(entries)|]
    {
      if d.v in names {
        return None;
      }
      idx := Some(|entries|);
      names := names[d.v := |entries|];
      entries := entries + [d];
    }
  }

  /** All variables are declared; the check for duplicates never fires, because edges are distinct. */
  method DeclareVariables(p: Problem, edges: seq<Edge>) returns (V: VarRegistry)
    requires Distinct(edges)
    ensures fresh(V) && V.Valid() && V.entries == Declarations(p, edges)
  {
    V := new VarRegistry();
    for i := 0 to |p.gpus|
      invariant fresh(V) && V.Valid() && V.entries == StartDecls(p, i)
      invariant forall v <- V.names :: v.Start? && v.i < i
    {
      var hi := if p.removeRedundant then p.numLayers as real else p.numLayers as real - 1.0;
      var idx := V.Alloc(Decl(Start(i), 0.0, Some(hi), true));
      assert idx.Some?;
    }
    ghost var starts := V.entries;
    assert starts + HoldDecls(p, 0) == starts;
    for i := 0 to |p.gpus|
      invariant fresh(V) && V.Valid() && V.entries == starts + HoldDecls(p, i)
      invariant forall v <- V.names :: v.Start? || (v.Hold? && v.i < i)
    {
      ghost var before := V.entries;
      assert before + HoldDeclsOf(i, 0) == before;
      for k := 1 to p.gpus[i].maxLayers + 1
        invariant fresh(V) && V.Valid() && V.entries == before + HoldDeclsOf(i, k - 1)
        invariant forall v <- V.names :: v.Start? || (v.Hold? && (v.i < i || (v.i == i && v.k < k)))
      {
        var idx := V.Alloc(BinaryDecl(Hold(i, k)));
        assert idx.Some?;
      }
    }
    DeclareFlowVariables(edges, V);
    DeclareConditions(p, edges, V);
  }

  method DeclareFlowVariables(edges: seq<Edge>, V: VarRegistry)
    requires Distinct(edges) && V.Valid() && forall v <- V.names :: v.Start? || v.Hold?
    modifies V
    ensures V.Valid() && V.entries == old(V.entries) + EdgeDecls(edges, |edges|)
    ensures forall v <- V.names :: !v.Cond1? && !v.Cond2?
  {
    ghost var before := V.entries;
    assert before + EdgeDecls(edges, 0) == before;
    for j := 0 to |edges|
      invariant V.Valid() && V.entries == before + EdgeDecls(edges, j)
      invariant forall v <- V.names :: v.Start? || v.Hold? || ((v.Flow? || v.Switch?) && v.e in edges[..j])
    {
      assert edges[..j + 1] == edges[..j] + [edges[j]] && edges[j] !in edges[..j];
      var flow := V.Alloc(Decl(Flow(edges[j]), 0.0, None, false));
      var switch := V.Alloc(BinaryDecl(Switch(edges[j])));
      assert flow.Some? && switch.Some?;
    }
  }

  method DeclareConditions(p: Problem, edges: seq<Edge>, V: VarRegistry)
    requires Distinct(edges) && V.Valid() && forall v <- V.names :: !v.Cond1? && !v.Cond2?
    modifies V
    ensures V.Valid() && V.entries == old(V.entries) + CondDecls(p, edges, |edges|)
  {
    ghost var before := V.entries;
    assert before + CondDecls(p, edges, 0) == before;
    for j := 0 to |edges|
      invariant V.Valid() && V.entries == before + CondDecls(p, edges, j)
      invariant forall v <- V.names :: (v.Cond1? || v.Cond2?) ==> v.e in edges[..j]
    {
      assert edges[..j + 1] == edges[..j] + [edges[j]] && edges[j] !in edges[..j];
      if p.partialInference && edges[j].from.Gpu? && edges[j].to.Gpu? {
        var c1 := V.Alloc(BinaryDecl(Cond1(edges[j])));
        var c2 := V.Alloc(BinaryDecl(Cond2(edges[j])));
        assert c1.Some? && c2.Some?;
      }
    }
  }

  lemma {:induction false} DeclsConcat(a: seq<Decl>, b: seq<Decl>, x: Vec)
    ensures DeclsHold(a + b, x) <==> DeclsHold(a, x) && DeclsHold(b, x)
  {
    if DeclsHold(a + b, x) {
      assert forall i :: 0 <= i < |a| ==> (a + b)[i] == a[i];
      forall i | 0 <= i < |b| ensures DeclHolds(b[i], x) {
        assert (a + b)[|a| + i] == b[i];
      }
    }
  }

  lemma {:induction false} StartDeclsMean(p: Problem, x: Vec, n: nat)
    ensures DeclsHold(StartDecls(p, n), x) <==>
              forall i: nat :: i < n ==>
                0.0 <= x(Start(i)) <= (if p.removeRedundant then p.numLayers as real else p.numLayers as real - 1.0) && Integral(x(Start(i)))
  {
    if n > 0 {
      var last := StartDecls(p, n)[|StartDecls(p, n - 1)|..];
      DeclsConcat(StartDecls(p, n - 1), last, x);
      assert DeclsHold(last, x) <==> DeclHolds(last[0], x);
      StartDeclsMean(p, x, n - 1);
    }
  }

  lemma {:induction false} HoldDeclsOfMean(x: Vec, i: nat, m: nat)
    ensures DeclsHold(HoldDeclsOf(i, m), x) <==> forall k: nat :: 1 <= k <= m ==> Binary(x(Hold(i, k)))
  {
    if m > 0 {
      DeclsConcat(HoldDeclsOf(i, m - 1), [BinaryDecl(Hold(i, m))], x);
      assert DeclsHold([BinaryDecl(Hold(i, m))], x) <==> DeclHolds([BinaryDecl(Hold(i, m))][0], x);
      HoldDeclsOfMean(x, i, m - 1);
    }
  }

  lemma {:induction false} HoldDeclsMean(p: Problem, x: Vec, n: nat)
    requires n <= |p.gpus|
    ensures DeclsHold(HoldDecls(p, n), x) <==>
              forall i: nat, k: nat :: i < n && 1 <= k <= p.gpus[i].maxLayers ==> Binary(x(Hold(i, k)))
  {
    if n > 0 {
      DeclsConcat(HoldDecls(p, n - 1), HoldDeclsOf(n - 1, p.gpus[n - 1].maxLayers), x);
      HoldDeclsOfMean(x, n - 1, p.gpus[n - 1].maxLayers);
      HoldDeclsMean(p, x, n - 1);
    }
  }

  lemma {:induction false} EdgeDeclsMean(p: Problem, edges: seq<Edge>, x: Vec, n: nat)
    requires n <= |edges|
    ensures DeclsHold(EdgeDecls(edges, n), x) && DeclsHold(CondDecls(p, edges, n), x) <==>
              forall j :: 0 <= j < n ==> EdgeBounds(p, x, edges[j])
  {
    if n > 0 {
      var e := edges[n - 1];
      var pair := [Decl(Flow(e), 0.0, None, false), BinaryDecl(Switch(e))];
      var conds := [BinaryDecl(Cond1(e)), BinaryDecl(Cond2(e))];
      DeclsConcat(EdgeDecls(edges, n - 1), pair, x);
      DeclsConcat(CondDecls(p, edges, n - 1), conds, x);
      assert DeclsHold(pair, x) <==> DeclHolds(pair[0], x) && DeclHolds(pair[1], x);
      assert DeclsHold(conds, x) <==> DeclHolds(conds[0], x) && DeclHolds(conds[1], x);
      EdgeDeclsMean(p, edges, x, n - 1);
    }
  }

  /** The declared bounds and integrality marks are those of the system. */
  lemma {:induction false} DeclarationsMeanBounds(p: Problem, edges: seq<Edge>, x: Vec)
    ensures DeclsHold(Declarations(p, edges), x) <==> WithinBounds(p, edges, x)
  {
    hide DeclsHold, EdgeBounds;
    var n, m := |p.gpus|, |edges|;
    var a, b, c, d := StartDecls(p, n), HoldDecls(p, n), EdgeDecls(edges, m), CondDecls(p, edges, m);
    DeclsConcat(a + b + c, d, x);
    DeclsConcat(a + b, c, x);
    DeclsConcat(a, b, x);
    StartDeclsMean(p, x, n);
    HoldDeclsMean(p, x, n);
    EdgeDeclsMean(p, edges, x, m);
    hide StartDecls, HoldDecls, EdgeDecls, CondDecls, Binary, Integral;
    if DeclsHold(Declarations(p, edges), x) {
      forall i: nat | i < n ensures GpuBounds(p, x, i) {
      }
    }
    if WithinBounds(p, edges, x) {
      forall i: nat, k: nat | i < n && 1 <= k <= p.gpus[i].maxLayers ensures Binary(x(Hold(i, k))) {
        assert GpuBounds(p, x, i);
      }
      forall i: nat | i < n
        ensures 0.0 <= x(Start(i)) <= (if p.removeRedundant then p.numLayers as real else p.numLayers as real - 1.0) && Integral(x(Start(i)))
      {
        assert GpuBounds(p, x, i);
      }
      assert DeclsHold(a, x) && DeclsHold(b, x) && DeclsHold(c, x) && DeclsHold(d, x);
    }
  }

  // ---------- rows ----------

  /** The rows of the system, emitted step by step. */
  method BuildRows(p: Problem, edges: seq<Edge>) returns (rows: seq<Row>)
    requires ProperEdges(p, edges)
    ensures rows == HelixRows(p, edges)
  {
    hide ProperEdges, AllPlacementRows, AllConservationRows, AllCapacityRows, AllSwitchRows, AllFlowRows;
    var placement := BuildPlacementRows(p);
    var flow := BuildFlowRows(p, edges);
    var switch := BuildSwitchRows(p, edges);
    var last := BuildThroughputRows(p, edges);
    rows := placement + flow + switch + last;
    ghost var b, c := AllConservationRows(p, edges, |p.gpus|), AllCapacityRows(p, edges, |p.gpus|);
    assert placement + (b + c) == placement + b + c;
  }

  /** One choice of a layer count, and an end within the model, for each GPU. */
  method BuildPlacementRows(p: Problem) returns (rows: seq<Row>)
    ensures rows == AllPlacementRows(p, |p.gpus|)
  {
    hide EndTerms;
    rows := [];
    for i := 0 to |p.gpus|
      invariant rows == AllPlacementRows(p, i)
    {
      var ones := [];
      for k := 1 to p.gpus[i].maxLayers + 1
        invariant ones == HoldTerms(i, One, 1, k - 1)
      {
        ones := ones + [Term(Hold(i, k), 1.0)];
      }
      var end := EndCoeffs(p, i);
      rows := rows + [Eq(ones, 1.0)];
      rows := rows + [Leq(end, p.numLayers as real)];
    }
  }

  method BuildSwitchRows(p: Problem, edges: seq<Edge>) returns (rows: seq<Row>)
    requires ProperEdges(p, edges)
    ensures rows == AllSwitchRows(p, edges, |edges|)
  {
    hide SwitchRows;
    rows := [];
    for j := 0 to |edges|
      invariant rows == AllSwitchRows(p, edges, j)
    {
      var more := EmitSwitchRows(p, edges[j]);
      rows := rows + more;
    }
  }

  function Get(linkMap: map<(Node, Node), real>, from: Node, to: Node): Option<real> {
    if (from, to) in linkMap then Some(linkMap[(from, to)]) else None
  }

  /** The throughput of each linked pair of nodes; a later link replaces an earlier one of the same pair. */
  method BuildLinkMap(links: seq<Link>) returns (linkMap: map<(Node, Node), real>)
    ensures forall from, to :: Get(linkMap, from, to) == Recorded(links, from, to)
  {
    linkMap := map[];
    for n := 0 to |links|
      invariant forall from, to :: Get(linkMap, from, to) == Recorded(links[..n], from, to)
    {
      assert links[..n + 1][..n] == links[..n];
      ghost var before := linkMap;
      linkMap := linkMap[(links[n].from, links[n].to) := links[n].throughput];
      forall from, to ensures Get(linkMap, from, to) == Recorded(links[..n + 1], from, to) {
        assert Get(before, from, to) == Recorded(links[..n], from, to);
      }
    }
    assert links[..|links|] == links;
  }

  /** Looks an edge up in its own direction, then in the other; there is nothing to find when no link joins its ends. */
  method LookUpThroughput(links: seq<Link>, linkMap: map<(Node, Node), real>, e: Edge) returns (throughput: Option<real>)
    requires forall from, to :: Get(linkMap, from, to) == Recorded(links, from, to)
    ensures throughput.None? <==> NoLink(links, e.from, e.to) && NoLink(links, e.to, e.from)
    ensures throughput.Some? ==> throughput.value == EdgeThroughput(links, e)
  {
    hide NoLink, Recorded;
    RecordedByIndex(links, e.from, e.to);
    RecordedByIndex(links, e.to, e.from);
    assert Get(linkMap, e.from, e.to) == Recorded(links, e.from, e.to);
    assert Get(linkMap, e.to, e.from) == Recorded(links, e.to, e.from);
    if (e.from, e.to) in linkMap {
      return Some(linkMap[(e.from, e.to)]);
    }
    if (e.to, e.from) in linkMap {
      return Some(linkMap[(e.to, e.from)]);
    }
    return None;
  }

  /** The edge's row: its flow is at most its throughput when it is switched on, and zero otherwise. */
  ghost predicate IsThroughputRow(p: Problem, e: Edge, row: Row) {
    exists t ::
      && HasThroughput(p.links, e, t)
      && row == Row([Term(Flow(e), 1.0), Term(Switch(e), -t)], None, Some(0.0))
  }

  /**
   An edge carries at most its throughput, and nothing when it is switched off. The lookup
   never comes up empty on an edge of the links (`EdgesFollowLinks`).
   */
  method BuildThroughputRows(p: Problem, edges: seq<Edge>) returns (rows: seq<Row>)
    ensures |rows| == |edges| && forall k :: 0 <= k < |edges| ==> IsThroughputRow(p, edges[k], rows[k])
    ensures rows == AllFlowRows(p, edges, |edges|)
  {
    hide NoLink, LastLink, Recorded;
    var linkMap := BuildLinkMap(p.links);
    rows := [];
    for j := 0 to |edges|
      invariant |rows| == j && forall k :: 0 <= k < j ==> IsThroughputRow(p, edges[k], rows[k])
      invariant rows == AllFlowRows(p, edges, j)
    {
      var found := LookUpThroughput(p.links, linkMap, edges[j]);
      var throughput := if found.Some? then found.value else 0.0;
      ThroughputByIndex(p.links, edges[j]);
      rows := rows + [Leq([Term(Flow(edges[j]), 1.0), Term(Switch(edges[j]), -throughput)], 0.0)];
    }
  }

  /** The directed edges of the links, each once. */
  method BuildDirectedEdges(p: Problem) returns (edges: seq<Edge>)
    ensures EdgeList(p, edges)
  {
    edges := [];
    for n := 0 to |p.links|
      invariant Distinct(edges) && forall e :: e in edges <==> IsEdge(p.links[..n], e)
    {
      var link := p.links[n];
      if link.from != Sink && link.to != Source && Edge(link.from, link.to) !in edges {
        edges := edges + [Edge(link.from, link.to)];
      }
      if link.to != Sink && link.from != Source && Edge(link.to, link.from) !in edges {
        edges := edges + [Edge(link.to, link.from)];
      }
      forall e ensures e in edges <==> IsEdge(p.links[..n + 1], e) {
        OneMoreEdge(p.links, n, e);
      }
    }
    assert p.links[..|p.links|] == p.links;
  }

  lemma {:induction false} OneMoreEdge(links: seq<Link>, n: nat, e: Edge)
    requires n < |links|
    ensures IsEdge(links[..n + 1], e) <==> IsEdge(links[..n], e) || Yields(links[n], e)
  {
    if IsEdge(links[..n], e) {
      var j :| 0 <= j < n && Yields(links[..n][j], e);
      assert Yields(links[..n + 1][j], e);
    }
    assert links[..n + 1][n] == links[n];
  }

  /** The coefficients of a GPU's end: its start, and each layer count times its choice. */
  method EndCoeffs(p: Problem, i: nat) returns (terms: seq<Term>)
    requires i < |p.gpus|
    ensures terms == EndTerms(p, i)
  {
    terms := [Term(Start(i), 1.0)];
    for k := 1 to p.gpus[i].maxLayers + 1
      invariant terms == [Term(Start(i), 1.0)] + HoldTerms(i, Count, 1, k - 1)
    {
      terms := terms + [Term(Hold(i, k), k as real)];
    }
  }

  /** Subtracts coefficients from a row, one by one. */
  method Minus(row: seq<Term>, terms: seq<Term>) returns (r: seq<Term>)
    ensures r == row + Negated(terms)
  {
    r := row;
    for j := 0 to |terms|
      invariant r == row + Negated(terms[..j])
    {
      assert terms[..j + 1] == terms[..j] + [terms[j]];
      NegatedAppend(terms[..j], terms[j]);
      r := r + [Term(terms[j].v, -terms[j].c)];
    }
    assert terms[..|terms|] == terms;
  }

  /** The rows that tie a switch to its edge, branch by branch. */
  method EmitSwitchRows(p: Problem, e: Edge) returns (rows: seq<Row>)
    requires ProperEdge(p, e)
    ensures rows == SwitchRows(p, e)
  {
    hide EndTerms, Negated;
    if e.from == Source {
      rows := EmitSourceRows(p, e);
    } else if e.to == Sink {
      rows := EmitSinkRows(p, e);
    } else if p.partialInference {
      rows := EmitPartialRows(p, e);
    } else {
      rows := EmitStrictRows(p, e);
    }
  }

  method EmitSourceRows(p: Problem, e: Edge) returns (rows: seq<Row>)
    requires e.to.Gpu?
    ensures rows == SourceRows(p, e)
  {
    var sw, si, L := Switch(e), Start(e.to.id), p.numLayers as real;
    rows := [];
    if !p.removeRedundant {
      rows := rows + [Geq([Term(sw, 1.0), Term(si, 1.0)], 1.0)];
    }
    rows := rows + [Leq([Term(si, 1.0), Term(sw, L)], L)];
  }

  method EmitSinkRows(p: Problem, e: Edge) returns (rows: seq<Row>)
    requires e.from.Gpu? && e.from.id < |p.gpus|
    ensures rows == SinkRows(p, e)
  {
    hide EndTerms, Negated;
    var sw, L := Switch(e), p.numLayers as real;
    var end := EndCoeffs(p, e.from.id);
    rows := [];
    if !p.removeRedundant {
      var row := Minus([Term(sw, L - 1.0)], end);
      rows := rows + [Geq(row, -(L - 1.0))];
    }
    var row := Minus([Term(sw, L)], end);
    rows := rows + [Leq(row, 0.0)];
  }

  method EmitPartialRows(p: Problem, e: Edge) returns (rows: seq<Row>)
    requires e.from.Gpu? && e.to.Gpu? && e.from.id < |p.gpus| && e.to.id < |p.gpus|
    ensures rows == PartialRows(p, e)
  {
    hide EndTerms, Negated;
    var sw, c1, c2, M, sb := Switch(e), Cond1(e), Cond2(e), p.numLayers as real + 1.0, Start(e.to.id);
    var endA := EndCoeffs(p, e.from.id);
    var endB := EndCoeffs(p, e.to.id);
    rows := [];
    if !p.removeRedundant {
      var row := Minus([Term(c1, M)], endA);
      rows := rows + [Geq(row + [Term(sb, 1.0)], 1.0)];
    }
    rows := rows + [Geq([Term(c1, -M), Term(sb, -1.0)] + endA, -M)];
    if !p.removeRedundant {
      var row := Minus([Term(c2, M)], endB);
      rows := rows + [Geq(row + endA, 0.0)];
    }
    var row := Minus([Term(c2, -M)] + endB, endA);
    rows := rows + [Geq(row, 1.0 - M)];
    if !p.removeRedundant {
      rows := rows + [Leq([Term(c1, 1.0), Term(c2, 1.0), Term(sw, -1.0)], 1.0)];
    }
    rows := rows + [Leq([Term(sw, 2.0), Term(c1, -1.0), Term(c2, -1.0)], 0.0)];
  }

  method EmitStrictRows(p: Problem, e: Edge) returns (rows: seq<Row>)
    requires e.from.Gpu? && e.to.Gpu? && e.from.id < |p.gpus| && e.to.id < |p.gpus|
    ensures rows == StrictRows(p, e)
  {
    hide EndTerms, Negated;
    var sw, L, sb := Switch(e), p.numLayers as real, Start(e.to.id);
    var endA := EndCoeffs(p, e.from.id);
    rows := [Leq([Term(sw, L), Term(sb, -1.0)] + endA, L)];
    var row := Minus([Term(sw, L), Term(sb, 1.0)], endA);
    rows := rows + [Leq(row, L)];
  }

  /** Conservation rows and throughput rows, collected from each GPU's neighbours. */
  method BuildFlowRows(p: Problem, edges: seq<Edge>) returns (rows: seq<Row>)
    ensures rows == AllConservationRows(p, edges, |p.gpus|) + AllCapacityRows(p, edges, |p.gpus|)
  {
    hide HoldTerms, InTerms, OutTerms, GpuThroughput, Negated;
    rows := [];
    for i := 0 to |p.gpus|
      invariant rows == AllConservationRows(p, edges, i)
    {
      var in_, out := CollectFlows(p, edges, i);
      var row := Minus(in_, out);
      rows := rows + [Eq(row, 0.0)];
    }
    ghost var before := rows;
    assert before + AllCapacityRows(p, edges, 0) == before;
    for i := 0 to |p.gpus|
      invariant rows == before + AllCapacityRows(p, edges, i)
    {
      var row := CapacityCoeffs(p, edges, i);
      rows := rows + [Leq(row, 0.0)];
    }
  }

  /** A GPU's inflow, less the throughput of each layer count times its choice; a count without one has throughput 0. */
  method CapacityCoeffs(p: Problem, edges: seq<Edge>, i: nat) returns (row: seq<Term>)
    requires i < |p.gpus|
    ensures row == InTerms(p, edges, i) + Negated(HoldTerms(i, GpuThroughput(p.gpus[i]), 1, p.gpus[i].maxLayers))
  {
    hide InTerms;
    ghost var throughput := GpuThroughput(p.gpus[i]);
    var in_, _ := CollectFlows(p, edges, i);
    row := in_;
    for k := 1 to p.gpus[i].maxLayers + 1
      invariant row == in_ + Negated(HoldTerms(i, throughput, 1, k - 1))
    {
      var tp := if k in p.gpus[i].throughput then p.gpus[i].throughput[k] else 0.0;
      NegatedAppend(HoldTerms(i, throughput, 1, k - 1), Term(Hold(i, k), tp));
      row := row + [Term(Hold(i, k), -tp)];
    }
  }

  /** A GPU's neighbours, in the order the links mention them. */
  method CollectNeighbours(links: seq<Link>, n: Node) returns (nbs: seq<Node>)
    ensures nbs == Neighbours(links, n)
  {
    nbs := [];
    for j := 0 to |links|
      invariant nbs == Neighbours(links[..j], n)
    {
      assert links[..j + 1][..j] == links[..j];
      if links[j].from == n && links[j].to !in nbs {
        nbs := nbs + [links[j].to];
      }
      if links[j].to == n && links[j].from !in nbs {
        nbs := nbs + [links[j].from];
      }
    }
    assert links[..|links|] == links;
  }

  method CollectFlows(p: Problem, edges: seq<Edge>, i: nat) returns (in_: seq<Term>, out: seq<Term>)
    ensures in_ == InTerms(p, edges, i) && out == OutTerms(p, edges, i)
  {
    var nbs := CollectNeighbours(p.links, Gpu(i));
    in_, out := [], [];
    var k := |nbs|;
    while k > 0
      invariant 0 <= k <= |nbs|
      invariant in_ == FlowTerms(edges, nbs[k..], EdgeFrom(Gpu(i)), Sink)
      invariant out == FlowTerms(edges, nbs[k..], EdgeTo(Gpu(i)), Source)
    {
      k := k - 1;
      assert nbs[k..][0] == nbs[k] && nbs[k..][1..] == nbs[k + 1..];
      if nbs[k] != Sink && Edge(nbs[k], Gpu(i)) in edges {
        in_ := [Term(Flow(Edge(nbs[k], Gpu(i))), 1.0)] + in_;
      }
      if nbs[k] != Source && Edge(Gpu(i), nbs[k]) in edges {
        out := [Term(Flow(Edge(Gpu(i), nbs[k])), 1.0)] + out;
      }
    }
    assert nbs[0..] == nbs;
  }

  // ---------- dense rows ----------

  function Dot(row: seq<real>, v: seq<real>): real
    requires |row| == |v|
  {
    if row == [] then 0.0 else row[0] * v[0] + Dot(row[1..], v[1..])
  }

  function SparseDot(coeffs: seq<(nat, real)>, v: seq<real>): real
    requires forall j :: 0 <= j < |coeffs| ==> coeffs[j].0 < |v|
  {
    if coeffs == [] then 0.0
    else SparseDot(coeffs[..|coeffs| - 1], v) + coeffs[|coeffs| - 1].1 * v[coeffs[|coeffs| - 1].0]
  }

  /** Coefficients of one variable add up. */
  function Dense(coeffs: seq<(nat, real)>, n: nat): (row: seq<real>)
    requires forall j :: 0 <= j < |coeffs| ==> coeffs[j].0 < n
    ensures |row| == n
  {
    if coeffs == [] then seq(n, _ => 0.0)
    else
      var row := Dense(coeffs[..|coeffs| - 1], n);
      var (i, c) := coeffs[|coeffs| - 1];
      row[i := row[i] + c]
  }

  class ConstraintBuilder {
    const numVars: nat
    var rows: seq<seq<real>>
    var lo: seq<Option<real>>
    var hi: seq<Option<real>>

    constructor (numVars: nat)
      ensures this.numVars == numVars && rows == [] && lo == [] && hi == []
    {
      this.numVars := numVars;
      rows, lo, hi := [], [], [];
    }

    method Add(coeffs: seq<(nat, real)>, low: Option<real>, high: Option<real>)
      requires forall j :: 0 <= j < |coeffs| ==> coeffs[j].0 < numVars
      modifies this
      ensures rows == old(rows) + [Dense(coeffs, numVars)]
      ensures lo == old(lo) + [low] && hi == old(hi) + [high]
    {
      var row: seq<real> := seq(numVars, _ => 0.0);
      for j := 0 to |coeffs|
        invariant row == Dense(coeffs[..j], numVars)
      {
        assert coeffs[..j + 1][..j] == coeffs[..j];
        row := row[coeffs[j].0 := row[coeffs[j].0] + coeffs[j].1];
      }
      assert coeffs[..|coeffs|] == coeffs;
      rows, lo, hi := rows + [row], lo + [low], hi + [high];
    }
  }

  lemma {:induction false} DotUpdate(row: seq<real>, v: seq<real>, i: nat, c: real)
    requires |row| == |v| && i < |row|
    ensures Dot(row[i := row[i] + c], v) == Dot(row, v) + c * v[i]
  {
    var row' := row[i := row[i] + c];
    if i == 0 {
      assert row'[1..] == row[1..];
      assert (row[0] + c) * v[0] == row[0] * v[0] + c * v[0];
    } else {
      assert row'[1..] == row[1..][i - 1 := row[1..][i - 1] + c];
      DotUpdate(row[1..], v[1..], i - 1, c);
    }
  }

  lemma {:induction false} DotZero(v: seq<real>, n: nat)
    requires |v| == n
    ensures Dot(seq(n, _ => 0.0), v) == 0.0
  {
    if n > 0 {
      var zeros := seq(n, _ => 0.0);
      assert zeros[1..] == seq(n - 1, _ => 0.0);
      DotZero(v[1..], n - 1);
    }
  }

  /** A dense row evaluates, on every vector, to the sum of its coefficients times their variables. */
  lemma {:induction false} DenseRowValue(coeffs: seq<(nat, real)>, n: nat, v: seq<real>)
    requires |v| == n && forall j :: 0 <= j < |coeffs| ==> coeffs[j].0 < n
    ensures Dot(Dense(coeffs, n), v) == SparseDot(coeffs, v)
  {
    hide Dot;
    if coeffs == [] {
      DotZero(v, n);
    } else {
      var before := coeffs[..|coeffs| - 1];
      DenseRowValue(before, n, v);
      var (i, c) := coeffs[|coeffs| - 1];
      DotUpdate(Dense(before, n), v, i, c);
    }
  }

  // ---------- reading a solution ----------

  /** The layer ranges the solver's caller reads off a vector. */
  method ExtractLayers(p: Problem, x: Vec) returns (start: seq<int>, count: seq<nat>)
    ensures Placement(start, count) == Decode(p, x)
  {
    start, count := [], [];
    for i := 0 to |p.gpus|
      invariant start == DecodeStart(p, x)[..i] && count == DecodeCount(p, x)[..i]
    {
      var num := 0;
      for k := 1 to p.gpus[i].maxLayers + 1
        invariant num == 0 && Chosen(x, i, 1, p.gpus[i].maxLayers) == Chosen(x, i, k, p.gpus[i].maxLayers)
      {
        if RoundsToOne(x(Hold(i, k))) {
          num := k;
          break;
        }
      }
      start, count := start + [Round(x(Start(i)))], count + [num];
    }
  }
}

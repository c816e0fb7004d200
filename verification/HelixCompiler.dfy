/**
 What is handed to the solver: bounds and integrality marks by index, dense rows with their
 limits, and a dense objective. A flat vector satisfies all of it exactly when the assignment
 that looks up each named variable at its index is feasible for the named system, and the
 objective it is scored by is the named one.
 */
module HelixCompiler {
  import opened Wrappers
  import opened Counting
  import opened HelixEncoding
  import opened HelixObjects

  type Names = map<Var, nat>

  /** The named assignment of a flat vector. */
  function View(names: Names, vec: seq<real>): Vec {
    (v: Var) => if v in names && names[v] < |vec| then vec[names[v]] else 0.0
  }

  // ---------- which variables there are ----------

  predicate Declared(p: Problem, edges: seq<Edge>, v: Var) {
    match v
    case Start(i) => i < |p.gpus|
    case Hold(i, k) => i < |p.gpus| && 1 <= k <= p.gpus[i].maxLayers
    case Flow(e) => e in edges
    case Switch(e) => e in edges
    case Cond1(e) => p.partialInference && e in edges && e.from.Gpu? && e.to.Gpu?
    case Cond2(e) => p.partialInference && e in edges && e.from.Gpu? && e.to.Gpu?
    case Bottleneck => false
  }

  ghost predicate Mentions(decls: seq<Decl>, v: Var) {
    exists j :: 0 <= j < |decls| && decls[j].v == v
  }

  lemma {:induction false} MentionsConcat(a: seq<Decl>, b: seq<Decl>, v: Var)
    requires Mentions(a, v) || Mentions(b, v)
    ensures Mentions(a + b, v)
  {
    if Mentions(a, v) {
      var j :| 0 <= j < |a| && a[j].v == v;
      assert (a + b)[j].v == v;
    } else {
      var j :| 0 <= j < |b| && b[j].v == v;
      assert (a + b)[|a| + j].v == v;
    }
  }

  lemma {:induction false} StartMentioned(p: Problem, n: nat, i: nat)
    requires i < n
    ensures Mentions(StartDecls(p, n), Start(i))
  {
    var last := StartDecls(p, n)[|StartDecls(p, n - 1)|..];
    if i < n - 1 {
      StartMentioned(p, n - 1, i);
    } else {
      assert last[0].v == Start(i);
    }
    MentionsConcat(StartDecls(p, n - 1), last, Start(i));
  }

  lemma {:induction false} HoldOfMentioned(i: nat, m: nat, k: nat)
    requires 1 <= k <= m
    ensures Mentions(HoldDeclsOf(i, m), Hold(i, k))
  {
    var last := [BinaryDecl(Hold(i, m))];
    if k < m {
      HoldOfMentioned(i, m - 1, k);
    } else {
      assert last[0].v == Hold(i, k);
    }
    MentionsConcat(HoldDeclsOf(i, m - 1), last, Hold(i, k));
  }

  lemma {:induction false} HoldMentioned(p: Problem, n: nat, i: nat, k: nat)
    requires i < n <= |p.gpus| && 1 <= k <= p.gpus[i].maxLayers
    ensures Mentions(HoldDecls(p, n), Hold(i, k))
  {
    if i < n - 1 {
      HoldMentioned(p, n - 1, i, k);
    } else {
      HoldOfMentioned(i, p.gpus[i].maxLayers, k);
    }
    MentionsConcat(HoldDecls(p, n - 1), HoldDeclsOf(n - 1, p.gpus[n - 1].maxLayers), Hold(i, k));
  }

  lemma {:induction false} EdgeMentioned(edges: seq<Edge>, n: nat, j: nat)
    requires j < n <= |edges|
    ensures Mentions(EdgeDecls(edges, n), Flow(edges[j])) && Mentions(EdgeDecls(edges, n), Switch(edges[j]))
  {
    var last := [Decl(Flow(edges[n - 1]), 0.0, None, false), BinaryDecl(Switch(edges[n - 1]))];
    if j < n - 1 {
      EdgeMentioned(edges, n - 1, j);
    } else {
      assert last[0].v == Flow(edges[j]) && last[1].v == Switch(edges[j]);
    }
    MentionsConcat(EdgeDecls(edges, n - 1), last, Flow(edges[j]));
    MentionsConcat(EdgeDecls(edges, n - 1), last, Switch(edges[j]));
  }

  lemma {:induction false} CondMentioned(p: Problem, edges: seq<Edge>, n: nat, j: nat)
    requires j < n <= |edges| && p.partialInference && edges[j].from.Gpu? && edges[j].to.Gpu?
    ensures Mentions(CondDecls(p, edges, n), Cond1(edges[j])) && Mentions(CondDecls(p, edges, n), Cond2(edges[j]))
  {
    var e := edges[n - 1];
    var last := if e.from.Gpu? && e.to.Gpu? then [BinaryDecl(Cond1(e)), BinaryDecl(Cond2(e))] else [];
    if j < n - 1 {
      CondMentioned(p, edges, n - 1, j);
    } else {
      assert last[0].v == Cond1(edges[j]) && last[1].v == Cond2(edges[j]);
    }
    MentionsConcat(CondDecls(p, edges, n - 1), last, Cond1(edges[j]));
    MentionsConcat(CondDecls(p, edges, n - 1), last, Cond2(edges[j]));
    assert CondDecls(p, edges, n) == CondDecls(p, edges, n - 1) + last;
  }

  /** Every variable of the system has a declaration. */
  lemma {:induction false} DeclaredMentioned(p: Problem, edges: seq<Edge>, v: Var)
    requires Declared(p, edges, v)
    ensures Mentions(Declarations(p, edges), v)
  {
    hide Mentions, StartDecls, HoldDecls, EdgeDecls, CondDecls;
    var n, m := |p.gpus|, |edges|;
    var a, b, c, d := StartDecls(p, n), HoldDecls(p, n), EdgeDecls(edges, m), CondDecls(p, edges, m);
    match v {
      case Start(i) => StartMentioned(p, n, i);
      case Hold(i, k) => HoldMentioned(p, n, i, k);
      case Flow(e) =>
        var j :| 0 <= j < m && edges[j] == e;
        EdgeMentioned(edges, m, j);
      case Switch(e) =>
        var j :| 0 <= j < m && edges[j] == e;
        EdgeMentioned(edges, m, j);
      case Cond1(e) =>
        var j :| 0 <= j < m && edges[j] == e;
        CondMentioned(p, edges, m, j);
      case Cond2(e) =>
        var j :| 0 <= j < m && edges[j] == e;
        CondMentioned(p, edges, m, j);
    }
    if Mentions(a, v) || Mentions(b, v) {
      MentionsConcat(a, b, v);
    }
    if Mentions(a + b, v) || Mentions(c, v) {
      MentionsConcat(a + b, c, v);
    }
    MentionsConcat(a + b + c, d, v);
  }

  // ---------- every row speaks of declared variables ----------

  ghost predicate TermsDeclared(p: Problem, edges: seq<Edge>, terms: seq<Term>) {
    forall j :: 0 <= j < |terms| ==> Declared(p, edges, terms[j].v)
  }

  ghost predicate RowsDeclared(p: Problem, edges: seq<Edge>, rows: seq<Row>) {
    forall r :: 0 <= r < |rows| ==> TermsDeclared(p, edges, rows[r].terms)
  }

  lemma {:induction false} HoldDeclared(p: Problem, edges: seq<Edge>, i: nat, c: nat -> real, n: nat)
    requires i < |p.gpus| && n <= p.gpus[i].maxLayers
    ensures TermsDeclared(p, edges, HoldTerms(i, c, 1, n))
  {
    if n > 0 {
      HoldDeclared(p, edges, i, c, n - 1);
    }
  }

  lemma {:induction false} NegatedDeclared(p: Problem, edges: seq<Edge>, terms: seq<Term>)
    requires TermsDeclared(p, edges, terms)
    ensures TermsDeclared(p, edges, Negated(terms))
  {
    hide Declared;
    if terms != [] {
      NegatedDeclared(p, edges, terms[1..]);
    }
  }

  lemma {:induction false} ConcatDeclared(p: Problem, edges: seq<Edge>, a: seq<Term>, b: seq<Term>)
    requires TermsDeclared(p, edges, a) && TermsDeclared(p, edges, b)
    ensures TermsDeclared(p, edges, a + b)
  {
  }

  lemma {:induction false} EndDeclared(p: Problem, edges: seq<Edge>, i: nat)
    requires i < |p.gpus|
    ensures TermsDeclared(p, edges, EndTerms(p, i)) && TermsDeclared(p, edges, Negated(EndTerms(p, i)))
  {
    HoldDeclared(p, edges, i, Count, p.gpus[i].maxLayers);
    NegatedDeclared(p, edges, EndTerms(p, i));
  }

  lemma {:induction false} FlowsDeclared(p: Problem, edges: seq<Edge>, nbs: seq<Node>, edge: Node -> Edge, never: Node)
    ensures TermsDeclared(p, edges, FlowTerms(edges, nbs, edge, never))
  {
    if nbs != [] {
      FlowsDeclared(p, edges, nbs[1..], edge, never);
    }
  }

  lemma {:induction false} GpuRowsDeclared(p: Problem, edges: seq<Edge>, i: nat)
    requires i < |p.gpus|
    ensures RowsDeclared(p, edges, PlacementRows(p, i))
    ensures TermsDeclared(p, edges, ConservationRow(p, edges, i).terms) && TermsDeclared(p, edges, CapacityRow(p, edges, i).terms)
  {
    hide TermsDeclared, HoldTerms, EndTerms, Negated, FlowTerms, Neighbours;
    var m, nbs := p.gpus[i].maxLayers, Neighbours(p.links, Gpu(i));
    HoldDeclared(p, edges, i, One, m);
    EndDeclared(p, edges, i);
    FlowsDeclared(p, edges, nbs, EdgeFrom(Gpu(i)), Sink);
    FlowsDeclared(p, edges, nbs, EdgeTo(Gpu(i)), Source);
    NegatedDeclared(p, edges, OutTerms(p, edges, i));
    ConcatDeclared(p, edges, InTerms(p, edges, i), Negated(OutTerms(p, edges, i)));
    var held := HoldTerms(i, GpuThroughput(p.gpus[i]), 1, m);
    HoldDeclared(p, edges, i, GpuThroughput(p.gpus[i]), m);
    NegatedDeclared(p, edges, held);
    ConcatDeclared(p, edges, InTerms(p, edges, i), Negated(held));
  }

  lemma {:induction false} SwitchRowsDeclared(p: Problem, edges: seq<Edge>, e: Edge)
    requires ProperEdge(p, e) && e in edges
    ensures RowsDeclared(p, edges, SwitchRows(p, e)) && TermsDeclared(p, edges, FlowRow(p, e).terms)
  {
    hide EndTerms, Negated, EdgeThroughput;
    if e.from.Gpu? {
      EndDeclared(p, edges, e.from.id);
    }
    if e.to.Gpu? {
      EndDeclared(p, edges, e.to.id);
    }
    forall r | 0 <= r < |SwitchRows(p, e)| ensures TermsDeclared(p, edges, SwitchRows(p, e)[r].terms) {
    }
  }

  lemma {:induction false} AllRowsDeclared(p: Problem, edges: seq<Edge>, n: nat, m: nat)
    requires n <= |p.gpus| && m <= |edges| && ProperEdges(p, edges)
    ensures RowsDeclared(p, edges, AllPlacementRows(p, n))
    ensures RowsDeclared(p, edges, AllConservationRows(p, edges, n)) && RowsDeclared(p, edges, AllCapacityRows(p, edges, n))
    ensures RowsDeclared(p, edges, AllSwitchRows(p, edges, m)) && RowsDeclared(p, edges, AllFlowRows(p, edges, m))
    decreases n + m
  {
    hide TermsDeclared, PlacementRows, ConservationRow, CapacityRow, SwitchRows, FlowRow;
    if n > 0 {
      AllRowsDeclared(p, edges, n - 1, m);
      GpuRowsDeclared(p, edges, n - 1);
    } else if m > 0 {
      AllRowsDeclared(p, edges, n, m - 1);
      SwitchRowsDeclared(p, edges, edges[m - 1]);
    }
  }

  lemma {:induction false} SystemDeclared(p: Problem, edges: seq<Edge>)
    requires ProperEdges(p, edges)
    ensures RowsDeclared(p, edges, HelixRows(p, edges))
  {
    hide TermsDeclared, AllPlacementRows, AllConservationRows, AllCapacityRows, AllSwitchRows, AllFlowRows;
    AllRowsDeclared(p, edges, |p.gpus|, |edges|);
  }

  // ---------- from names to indices ----------

  function Indexed(names: Names, terms: seq<Term>): (coeffs: seq<(nat, real)>)
    requires forall j :: 0 <= j < |terms| ==> terms[j].v in names
    ensures |coeffs| == |terms| && forall j :: 0 <= j < |terms| ==> coeffs[j] == (names[terms[j].v], terms[j].c)
  {
    seq(|terms|, j requires 0 <= j < |terms| => (names[terms[j].v], terms[j].c))
  }

  /** A row by index has, on a flat vector, the value of the named row. */
  lemma {:induction false} IndexedValue(names: Names, terms: seq<Term>, vec: seq<real>)
    requires forall j :: 0 <= j < |terms| ==> terms[j].v in names && names[terms[j].v] < |vec|
    ensures SparseDot(Indexed(names, terms), vec) == Eval(terms, View(names, vec))
  {
    if terms != [] {
      var n := |terms| - 1;
      IndexedValue(names, terms[..n], vec);
      assert Indexed(names, terms)[..n] == Indexed(names, terms[..n]);
      assert terms == terms[..n] + [terms[n]];
      EvalConcat(terms[..n], [terms[n]], View(names, vec));
      EvalOne(terms[n].v, terms[n].c, View(names, vec));
    }
  }

  ghost predicate Limits(lo: Option<real>, hi: Option<real>, value: real) {
    (lo.Some? ==> lo.value <= value) && (hi.Some? ==> value <= hi.value)
  }

  ghost predicate BoundOk(d: Decl, value: real) {
    d.lo <= value && (d.hi.Some? ==> value <= d.hi.value) && (d.integral ==> Integral(value))
  }

  /** The dense rows of the system, by index. */
  ghost predicate RowsBuilt(names: Names, n: nat, named: seq<Row>, rows: seq<seq<real>>, lo: seq<Option<real>>, hi: seq<Option<real>>) {
    && |named| == |rows| == |lo| == |hi|
    && forall r :: 0 <= r < |named| ==> RowBuilt(names, n, named[r], rows[r], lo[r], hi[r])
  }

  ghost predicate RowBuilt(names: Names, n: nat, named: Row, row: seq<real>, lo: Option<real>, hi: Option<real>) {
    && (forall j :: 0 <= j < |named.terms| ==> named.terms[j].v in names && names[named.terms[j].v] < n)
    && row == Dense(Indexed(names, named.terms), n) && lo == named.lo && hi == named.hi
  }

  lemma {:induction false} RowAgrees(names: Names, named: Row, row: seq<real>, lo: Option<real>, hi: Option<real>, vec: seq<real>)
    requires RowBuilt(names, |vec|, named, row, lo, hi)
    ensures |row| == |vec| && (Limits(lo, hi, Dot(row, vec)) <==> Holds(named, View(names, vec)))
  {
    hide Dot, SparseDot, Dense, Eval, View;
    DenseRowValue(Indexed(names, named.terms), |vec|, vec);
    IndexedValue(names, named.terms, vec);
  }

  lemma {:induction false} BoundsAgree(names: Names, entries: seq<Decl>, vec: seq<real>)
    requires |vec| == |entries| && forall i :: 0 <= i < |entries| ==> entries[i].v in names && names[entries[i].v] == i
    ensures (forall i :: 0 <= i < |entries| ==> BoundOk(entries[i], vec[i])) <==> DeclsHold(entries, View(names, vec))
  {
    var x := View(names, vec);
    forall i | 0 <= i < |entries| ensures BoundOk(entries[i], vec[i]) <==> DeclHolds(entries[i], x) {
      assert x(entries[i].v) == vec[i];
    }
  }

  /** What the solver checks of a flat vector. */
  ghost predicate Accepted(entries: seq<Decl>, rows: seq<seq<real>>, lo: seq<Option<real>>, hi: seq<Option<real>>, vec: seq<real>)
    requires |lo| == |hi| == |rows| && |vec| == |entries| && forall r :: 0 <= r < |rows| ==> |rows[r]| == |vec|
  {
    && (forall i :: 0 <= i < |entries| ==> BoundOk(entries[i], vec[i]))
    && (forall r :: 0 <= r < |rows| ==> Limits(lo[r], hi[r], Dot(rows[r], vec)))
  }

  /** The compiled arrays mean the named system, vector by vector. */
  lemma {:induction false} CompiledMeansFeasible(p: Problem, edges: seq<Edge>, names: Names, entries: seq<Decl>,
                                                 rows: seq<seq<real>>, lo: seq<Option<real>>, hi: seq<Option<real>>, vec: seq<real>)
    requires ProperEdges(p, edges) && entries == Declarations(p, edges) && |vec| == |entries|
    requires forall i :: 0 <= i < |entries| ==> entries[i].v in names && names[entries[i].v] == i
    requires RowsBuilt(names, |entries|, HelixRows(p, edges), rows, lo, hi)
    ensures forall r :: 0 <= r < |rows| ==> |rows[r]| == |vec|
    ensures Accepted(entries, rows, lo, hi, vec) <==> Feasible(p, edges, View(names, vec))
  {
    hide HelixRows, Declarations, View, Dot, Holds, RowBuilt, BoundOk, DeclsHold, Limits, WithinBounds;
    var x, named := View(names, vec), HelixRows(p, edges);
    BoundsAgree(names, entries, vec);
    DeclarationsMeanBounds(p, edges, x);
    forall r | 0 <= r < |rows| ensures |rows[r]| == |vec| && (Limits(lo[r], hi[r], Dot(rows[r], vec)) <==> Holds(named[r], x)) {
      RowAgrees(names, named[r], rows[r], lo[r], hi[r], vec);
    }
  }

  // ---------- the objective ----------

  /** Minus one for every flow out of the source. */
  function ObjectiveTerms(edges: seq<Edge>, n: nat): seq<Term> {
    if n == 0 then []
    else ObjectiveTerms(edges, n - 1) + (if Edge(Source, Gpu(n - 1)) in edges then [Term(Flow(Edge(Source, Gpu(n - 1))), -1.0)] else [])
  }

  lemma {:induction false} ObjectiveValue(edges: seq<Edge>, x: Vec, n: nat)
    ensures Eval(ObjectiveTerms(edges, n), x) == -Objective(edges, x, n)
  {
    if n > 0 {
      var v := Flow(Edge(Source, Gpu(n - 1)));
      var last := if Edge(Source, Gpu(n - 1)) in edges then [Term(v, -1.0)] else [];
      ObjectiveValue(edges, x, n - 1);
      EvalConcat(ObjectiveTerms(edges, n - 1), last, x);
      EvalOne(v, -1.0, x);
    }
  }

  lemma {:induction false} ObjectiveDeclared(p: Problem, edges: seq<Edge>, n: nat)
    ensures TermsDeclared(p, edges, ObjectiveTerms(edges, n))
  {
    if n > 0 {
      ObjectiveDeclared(p, edges, n - 1);
    }
  }

  /** The objective array: minus one is stored at the index of every flow out of the source. */
  method BuildObjective(names: Names, n: nat, edges: seq<Edge>, gpus: nat) returns (objective: seq<real>)
    requires forall v, w :: v in names && w in names && names[v] == names[w] ==> v == w
    requires forall j: nat :: j < gpus && Edge(Source, Gpu(j)) in edges ==>
               Flow(Edge(Source, Gpu(j))) in names && names[Flow(Edge(Source, Gpu(j)))] < n
    requires forall j :: 0 <= j < |ObjectiveTerms(edges, gpus)| ==>
               ObjectiveTerms(edges, gpus)[j].v in names && names[ObjectiveTerms(edges, gpus)[j].v] < n
    ensures objective == Dense(Indexed(names, ObjectiveTerms(edges, gpus)), n)
  {
    hide Indexed;
    objective := seq(n, _ => 0.0);
    ghost var all := ObjectiveTerms(edges, gpus);
    for j := 0 to gpus
      invariant ObjectiveTerms(edges, j) <= all && objective == Dense(Indexed(names, ObjectiveTerms(edges, j)), n)
      invariant forall k: nat :: j <= k < gpus && Edge(Source, Gpu(k)) in edges ==> objective[names[Flow(Edge(Source, Gpu(k)))]] == 0.0
    {
      ObjectivePrefix(edges, j + 1, gpus);
      if Edge(Source, Gpu(j)) in edges {
        var idx := names[Flow(Edge(Source, Gpu(j)))];
        DenseAppend(names, ObjectiveTerms(edges, j), Term(Flow(Edge(Source, Gpu(j))), -1.0), n);
        assert objective[idx] == 0.0;
        objective := objective[idx := -1.0];
      } else {
        assert ObjectiveTerms(edges, j + 1) == ObjectiveTerms(edges, j);
      }
    }
  }

  lemma {:induction false} DenseAppend(names: Names, terms: seq<Term>, t: Term, n: nat)
    requires forall j :: 0 <= j < |terms| ==> terms[j].v in names && names[terms[j].v] < n
    requires t.v in names && names[t.v] < n
    ensures var row := Dense(Indexed(names, terms), n);
            Dense(Indexed(names, terms + [t]), n) == row[names[t.v] := row[names[t.v]] + t.c]
  {
    var all := Indexed(names, terms + [t]);
    assert all[..|terms|] == Indexed(names, terms) && all[|terms|] == (names[t.v], t.c);
  }

  lemma {:induction false} ObjectivePrefix(edges: seq<Edge>, j: nat, n: nat)
    requires j <= n
    ensures ObjectiveTerms(edges, j) <= ObjectiveTerms(edges, n)
  {
    if j < n {
      ObjectivePrefix(edges, j, n - 1);
    }
  }

  // ---------- the compiler ----------

  /** The names of a registry whose entries are the system's declarations. */
  lemma {:induction false} AllNamed(p: Problem, edges: seq<Edge>, names: Names, entries: seq<Decl>, terms: seq<Term>)
    requires entries == Declarations(p, edges) && TermsDeclared(p, edges, terms)
    requires forall i :: 0 <= i < |entries| ==> entries[i].v in names && names[entries[i].v] == i
    ensures forall j :: 0 <= j < |terms| ==> terms[j].v in names && names[terms[j].v] < |entries|
  {
    hide Declarations, Declared;
    forall j | 0 <= j < |terms| ensures terms[j].v in names && names[terms[j].v] < |entries| {
      DeclaredMentioned(p, edges, terms[j].v);
      var i :| 0 <= i < |entries| && entries[i].v == terms[j].v;
    }
  }

  /**
   Declares the variables, adds the rows one by one by index, and fills in the objective. The
   solver's arrays accept a flat vector exactly when the named system is feasible for it, and
   score it with minus the flow out of the source.
   */
  method Compile(p: Problem, edges: seq<Edge>) returns (V: VarRegistry, C: ConstraintBuilder, objective: seq<real>)
    requires Distinct(edges) && ProperEdges(p, edges)
    ensures fresh(V) && fresh(C) && V.Valid() && V.entries == Declarations(p, edges)
    ensures |C.lo| == |C.hi| == |C.rows| == |HelixRows(p, edges)| && |objective| == |V.entries|
    ensures forall r :: 0 <= r < |C.rows| ==> |C.rows[r]| == |V.entries|
    ensures forall vec: seq<real> :: |vec| == |V.entries| ==>
              && (Accepted(V.entries, C.rows, C.lo, C.hi, vec) <==> Feasible(p, edges, View(V.names, vec)))
              && Dot(objective, vec) == -Objective(edges, View(V.names, vec), |p.gpus|)
  {
    hide HelixRows, Declarations, View, Dot, Feasible, Accepted, Dense, ObjectiveTerms, Objective, TermsDeclared, RowBuilt;
    V := DeclareVariables(p, edges);
    var named := BuildRows(p, edges);
    SystemDeclared(p, edges);
    var n := |V.entries|;
    C := new ConstraintBuilder(n);
    ghost var names := V.names;
    for r := 0 to |named|
      invariant fresh(C) && C.numVars == n && V.Valid() && V.names == names && V.entries == Declarations(p, edges)
      invariant RowsBuilt(V.names, n, named[..r], C.rows, C.lo, C.hi)
    {
      AllNamed(p, edges, V.names, V.entries, named[r].terms);
      OneMoreRow(V.names, n, named, r, C.rows, C.lo, C.hi);
      C.Add(Indexed(V.names, named[r].terms), named[r].lo, named[r].hi);
    }
    assert named[..|named|] == named;
    ObjectiveDeclared(p, edges, |p.gpus|);
    AllNamed(p, edges, V.names, V.entries, ObjectiveTerms(edges, |p.gpus|));
    forall j: nat | j < |p.gpus| && Edge(Source, Gpu(j)) in edges
      ensures Flow(Edge(Source, Gpu(j))) in V.names && V.names[Flow(Edge(Source, Gpu(j)))] < n
    {
      DeclaredMentioned(p, edges, Flow(Edge(Source, Gpu(j))));
    }
    objective := BuildObjective(V.names, n, edges, |p.gpus|);
    Sizes(V.names, n, named, C.rows, C.lo, C.hi);
    forall vec: seq<real> | |vec| == n
      ensures Accepted(V.entries, C.rows, C.lo, C.hi, vec) <==> Feasible(p, edges, View(V.names, vec))
      ensures Dot(objective, vec) == -Objective(edges, View(V.names, vec), |p.gpus|)
    {
      CompiledMeansFeasible(p, edges, V.names, V.entries, C.rows, C.lo, C.hi, vec);
      DenseRowValue(Indexed(V.names, ObjectiveTerms(edges, |p.gpus|)), n, vec);
      IndexedValue(V.names, ObjectiveTerms(edges, |p.gpus|), vec);
      ObjectiveValue(edges, View(V.names, vec), |p.gpus|);
    }
  }

  lemma {:induction false} OneMoreRow(names: Names, n: nat, named: seq<Row>, r: nat, rows: seq<seq<real>>, lo: seq<Option<real>>, hi: seq<Option<real>>)
    requires r < |named| && RowsBuilt(names, n, named[..r], rows, lo, hi)
    requires forall j :: 0 <= j < |named[r].terms| ==> named[r].terms[j].v in names && names[named[r].terms[j].v] < n
    ensures RowsBuilt(names, n, named[..r + 1], rows + [Dense(Indexed(names, named[r].terms), n)], lo + [named[r].lo], hi + [named[r].hi])
  {
    var rows', lo', hi' := rows + [Dense(Indexed(names, named[r].terms), n)], lo + [named[r].lo], hi + [named[r].hi];
    assert RowBuilt(names, n, named[r], rows'[r], lo'[r], hi'[r]);
    hide RowBuilt;
    forall k | 0 <= k < r ensures RowBuilt(names, n, named[k], rows'[k], lo'[k], hi'[k]) {
      assert RowBuilt(names, n, named[..r][k], rows[k], lo[k], hi[k]);
    }
  }

  lemma {:induction false} Sizes(names: Names, n: nat, named: seq<Row>, rows: seq<seq<real>>, lo: seq<Option<real>>, hi: seq<Option<real>>)
    requires RowsBuilt(names, n, named, rows, lo, hi)
    ensures |named| == |rows| == |lo| == |hi| && forall r :: 0 <= r < |rows| ==> |rows[r]| == n
  {
    forall r | 0 <= r < |rows| ensures |rows[r]| == n {
      assert RowBuilt(names, n, named[r], rows[r], lo[r], hi[r]);
    }
  }
}

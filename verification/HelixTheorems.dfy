/**
 The compiled system means the placement problem: every feasible vector decodes to a
 solution with the same objective (soundness), and every solution encodes to a feasible
 vector that decodes back to it (completeness). It follows that dropping the rows marked
 redundant changes neither the solutions nor the objective values.
 */
module HelixTheorems {
  import opened Wrappers
  import opened HelixEncoding
  import opened HelixMeaning

  // ---------- layer counts are one-hot ----------

  /** The nearest integer, halves to even. */
  function Round(r: real): int {
    var f := r.Floor;
    var rest := r - f as real;
    if rest < 0.5 || (rest == 0.5 && f % 2 == 0) then f else f + 1
  }

  /** No integer is nearer, and of two equally near ones it is the even one. */
  lemma {:induction false} RoundIsNearest(r: real, n: int)
    ensures var d := Round(r) as real - r;
            && -0.5 <= d <= 0.5
            && (d == 0.5 || d == -0.5 ==> Round(r) % 2 == 0)
            && (n != Round(r) ==> n as real - r >= 0.5 || n as real - r <= -0.5)
  {
    var f := r.Floor;
    assert f as real <= r < f as real + 1.0;
    if n < Round(r) {
      assert n as real <= Round(r) as real - 1.0;
    } else if n > Round(r) {
      assert n as real >= Round(r) as real + 1.0;
    }
  }

  predicate RoundsToOne(r: real) {
    Round(r) == 1
  }

  /** The first layer count from k on whose variable rounds to one; 0 when there is none. */
  function Chosen(x: Vec, i: nat, k: nat, m: int): nat
    decreases m + 1 - k
  {
    if k > m then 0 else if RoundsToOne(x(Hold(i, k))) then k else Chosen(x, i, k + 1, m)
  }

  /** Among the layer counts lo .. lo+n-1 of GPU i, exactly k is chosen. */
  ghost predicate OneHot(x: Vec, i: nat, lo: nat, n: nat, k: nat) {
    lo <= k < lo + n && forall j: nat :: lo <= j < lo + n ==> x(Hold(i, j)) == (if j == k then 1.0 else 0.0)
  }

  lemma {:induction false} NonNegativeSum(x: Vec, i: nat, lo: nat, n: nat)
    requires forall j: nat :: lo <= j < lo + n ==> x(Hold(i, j)) >= 0.0
    ensures Eval(HoldTerms(i, One, lo, n), x) >= 0.0
    ensures Eval(HoldTerms(i, One, lo, n), x) == 0.0 ==> forall j: nat :: lo <= j < lo + n ==> x(Hold(i, j)) == 0.0
  {
    if n > 0 {
      EvalConcat(HoldTerms(i, One, lo, n - 1), [Term(Hold(i, lo + n - 1), 1.0)], x);
      EvalOne(Hold(i, lo + n - 1), 1.0, x);
      NonNegativeSum(x, i, lo, n - 1);
    }
  }

  /** Binary variables that sum to one have exactly one one. */
  lemma {:induction false} ExactlyOne(x: Vec, i: nat, lo: nat, n: nat) returns (k: nat)
    requires forall j: nat :: lo <= j < lo + n ==> Binary(x(Hold(i, j)))
    requires Eval(HoldTerms(i, One, lo, n), x) == 1.0
    ensures OneHot(x, i, lo, n, k)
  {
    if n == 0 {
      assert false;
    } else {
      EvalConcat(HoldTerms(i, One, lo, n - 1), [Term(Hold(i, lo + n - 1), 1.0)], x);
      EvalOne(Hold(i, lo + n - 1), 1.0, x);
      NonNegativeSum(x, i, lo, n - 1);
      if x(Hold(i, lo + n - 1)) == 0.0 {
        k := ExactlyOne(x, i, lo, n - 1);
      } else {
        k := lo + n - 1;
      }
    }
  }

  /** A one-hot choice picks its coefficient out of any sum over layer counts. */
  lemma {:induction false} PickedCoefficient(x: Vec, i: nat, c: nat -> real, lo: nat, m: nat, n: nat, k: nat)
    requires OneHot(x, i, lo, m, k) && n <= m
    ensures Eval(HoldTerms(i, c, lo, n), x) == (if k < lo + n then c(k) else 0.0)
  {
    if n > 0 {
      var last := lo + n - 1;
      EvalConcat(HoldTerms(i, c, lo, n - 1), [Term(Hold(i, last), c(last))], x);
      EvalOne(Hold(i, last), c(last), x);
      PickedCoefficient(x, i, c, lo, m, n - 1, k);
      if last == k {
        assert c(last) * x(Hold(i, last)) == c(last);
      } else {
        assert c(last) * x(Hold(i, last)) == 0.0;
      }
    }
  }

  lemma {:induction false} ChosenIsTheOne(x: Vec, i: nat, lo: nat, n: nat, j: nat, k: nat)
    requires OneHot(x, i, lo, n, k) && lo <= j <= k
    ensures Chosen(x, i, j, lo + n - 1) == k
    decreases k - j
  {
    if j < k {
      ChosenIsTheOne(x, i, lo, n, j + 1, k);
    }
  }

  // ---------- decoding ----------

  function DecodeStart(p: Problem, x: Vec): (r: seq<int>)
    ensures |r| == |p.gpus| && forall i :: 0 <= i < |r| ==> r[i] == Round(x(Start(i)))
  {
    seq(|p.gpus|, i requires 0 <= i < |p.gpus| => Round(x(Start(i))))
  }

  function DecodeCount(p: Problem, x: Vec): (r: seq<nat>)
    ensures |r| == |p.gpus| && forall i :: 0 <= i < |r| ==> r[i] == Chosen(x, i, 1, p.gpus[i].maxLayers)
  {
    seq(|p.gpus|, i requires 0 <= i < |p.gpus| => Chosen(x, i, 1, p.gpus[i].maxLayers))
  }

  function Decode(p: Problem, x: Vec): (pl: Placement)
    ensures Sized(p, pl)
  {
    Placement(DecodeStart(p, x), DecodeCount(p, x))
  }

  /** The vector's start and end of GPU i are the decoded range. */
  ghost predicate Agrees(p: Problem, x: Vec, pl: Placement, i: nat)
    requires Sized(p, pl) && i < |p.gpus|
  {
    && x(Start(i)) == pl.start[i] as real
    && OneHot(x, i, 1, p.gpus[i].maxLayers, pl.count[i])
    && Eval(EndTerms(p, i), x) == End(pl, i) as real
  }

  lemma {:induction false} EndAgrees(p: Problem, x: Vec, pl: Placement, i: nat)
    requires Sized(p, pl) && i < |p.gpus| && x(Start(i)) == pl.start[i] as real
    requires OneHot(x, i, 1, p.gpus[i].maxLayers, pl.count[i])
    ensures Agrees(p, x, pl, i)
  {
    var m := p.gpus[i].maxLayers;
    EvalConcat([Term(Start(i), 1.0)], HoldTerms(i, Count, 1, m), x);
    EvalOne(Start(i), 1.0, x);
    PickedCoefficient(x, i, Count, 1, m, m, pl.count[i]);
  }

  lemma {:induction false} PlacementRowsMean(p: Problem, x: Vec, i: nat)
    requires i < |p.gpus|
    ensures AllHold(PlacementRows(p, i), x) <==>
              Eval(HoldTerms(i, One, 1, p.gpus[i].maxLayers), x) == 1.0 && Eval(EndTerms(p, i), x) <= p.numLayers as real
  {
    var rows := PlacementRows(p, i);
    assert AllHold(rows, x) <==> Holds(rows[0], x) && Holds(rows[1], x);
  }

  /** A feasible vector decodes, GPU by GPU, to a valid range that it agrees with. */
  lemma {:induction false} DecodedRange(p: Problem, x: Vec, i: nat)
    requires i < |p.gpus| && GpuBounds(p, x, i) && AllHold(PlacementRows(p, i), x)
    ensures var pl := Decode(p, x);
            && Agrees(p, x, pl, i)
            && 0 <= pl.start[i] && 1 <= pl.count[i] <= p.gpus[i].maxLayers && End(pl, i) <= p.numLayers
  {
    PlacementRowsMean(p, x, i);
    var k := ExactlyOne(x, i, 1, p.gpus[i].maxLayers);
    ChosenIsTheOne(x, i, 1, p.gpus[i].maxLayers, 1, k);
    EndAgrees(p, x, Decode(p, x), i);
  }

  // ---------- what the switch rows say ----------

  lemma {:induction false} OptionalRow(remove: bool, optional: Row, row: Row, x: Vec)
    ensures AllHold(WithOptional(remove, optional, row), x) <==> (!remove ==> Holds(optional, x)) && Holds(row, x)
  {
    var rows := WithOptional(remove, optional, row);
    assert remove ==> rows[0] == row;
    assert !remove ==> rows[0] == optional && rows[1] == row;
  }

  lemma {:induction false} SourceRowsMean(p: Problem, e: Edge, x: Vec)
    requires e.to.Gpu?
    ensures AllHold(SourceRows(p, e), x) <==>
              && (!p.removeRedundant ==> x(Switch(e)) + x(Start(e.to.id)) >= 1.0)
              && x(Start(e.to.id)) + p.numLayers as real * x(Switch(e)) <= p.numLayers as real
  {
    var L, s := p.numLayers as real, Start(e.to.id);
    var first := Geq([Term(Switch(e), 1.0), Term(s, 1.0)], 1.0);
    var last := Leq([Term(s, 1.0), Term(Switch(e), L)], L);
    hide AllHold;
    OptionalRow(p.removeRedundant, first, last, x);
    EvalTwo(Switch(e), 1.0, s, 1.0, x);
    EvalTwo(s, 1.0, Switch(e), L, x);
  }

  lemma {:induction false} SinkRowsMean(p: Problem, e: Edge, x: Vec)
    requires e.from.Gpu? && e.from.id < |p.gpus|
    ensures var L, end := p.numLayers as real, Eval(EndTerms(p, e.from.id), x);
            AllHold(SinkRows(p, e), x) <==>
              && (!p.removeRedundant ==> (L - 1.0) * x(Switch(e)) - end >= -(L - 1.0))
              && L * x(Switch(e)) - end <= 0.0
  {
    hide AllHold, EndTerms, Eval, Negated;
    var L, end := p.numLayers as real, Negated(EndTerms(p, e.from.id));
    var first := Geq([Term(Switch(e), L - 1.0)] + end, -(L - 1.0));
    var last := Leq([Term(Switch(e), L)] + end, 0.0);
    OptionalRow(p.removeRedundant, first, last, x);
    EvalNegated(EndTerms(p, e.from.id), x);
    EvalConcat([Term(Switch(e), L - 1.0)], end, x);
    EvalConcat([Term(Switch(e), L)], end, x);
    EvalOne(Switch(e), L - 1.0, x);
    EvalOne(Switch(e), L, x);
  }

  lemma {:induction false} StrictRowsMean(p: Problem, e: Edge, x: Vec)
    requires e.from.Gpu? && e.to.Gpu? && e.from.id < |p.gpus| && e.to.id < |p.gpus|
    ensures var L, endA, startB := p.numLayers as real, Eval(EndTerms(p, e.from.id), x), x(Start(e.to.id));
            AllHold(StrictRows(p, e), x) <==>
              && L * x(Switch(e)) - startB + endA <= L
              && L * x(Switch(e)) + startB - endA <= L
  {
    hide EndTerms, Eval, Negated;
    var L, end, s := p.numLayers as real, EndTerms(p, e.from.id), Start(e.to.id);
    var rows := StrictRows(p, e);
    assert AllHold(rows, x) <==> Holds(rows[0], x) && Holds(rows[1], x);
    hide AllHold;
    EvalNegated(end, x);
    EvalConcat([Term(Switch(e), L), Term(s, -1.0)], end, x);
    EvalConcat([Term(Switch(e), L), Term(s, 1.0)], Negated(end), x);
    EvalTwo(Switch(e), L, s, -1.0, x);
    EvalTwo(Switch(e), L, s, 1.0, x);
  }

  /** The six inequalities of an edge under partial inference; three of them only in the full system. */
  ghost predicate PartialSystem(full: bool, M: real, endA: real, startB: real, endB: real, sw: real, c1: real, c2: real) {
    && (full ==> M * c1 - endA + startB >= 1.0)
    && -M * c1 - startB + endA >= -M
    && (full ==> M * c2 - endB + endA >= 0.0)
    && -M * c2 + endB - endA >= 1.0 - M
    && (full ==> c1 + c2 - sw <= 1.0)
    && 2.0 * sw - c1 - c2 <= 0.0
  }

  lemma {:induction false} PartialRowsMean(p: Problem, e: Edge, x: Vec)
    requires e.from.Gpu? && e.to.Gpu? && e.from.id < |p.gpus| && e.to.id < |p.gpus|
    ensures AllHold(PartialRows(p, e), x) <==>
              PartialSystem(!p.removeRedundant, p.numLayers as real + 1.0, Eval(EndTerms(p, e.from.id), x), x(Start(e.to.id)),
                            Eval(EndTerms(p, e.to.id), x), x(Switch(e)), x(Cond1(e)), x(Cond2(e)))
  {
    hide AllHold, EndTerms, Eval, Negated;
    var M, a, b, s := p.numLayers as real + 1.0, EndTerms(p, e.from.id), EndTerms(p, e.to.id), Start(e.to.id);
    var r1 := Geq([Term(Cond1(e), M)] + Negated(a) + [Term(s, 1.0)], 1.0);
    var r2 := Geq([Term(Cond1(e), -M), Term(s, -1.0)] + a, -M);
    var r3 := Geq([Term(Cond2(e), M)] + Negated(b) + a, 0.0);
    var r4 := Geq([Term(Cond2(e), -M)] + b + Negated(a), 1.0 - M);
    var r5 := Leq([Term(Cond1(e), 1.0), Term(Cond2(e), 1.0), Term(Switch(e), -1.0)], 1.0);
    var r6 := Leq([Term(Switch(e), 2.0), Term(Cond1(e), -1.0), Term(Cond2(e), -1.0)], 0.0);
    var remove := p.removeRedundant;
    AllHoldConcat(WithOptional(remove, r1, r2) + WithOptional(remove, r3, r4), WithOptional(remove, r5, r6), x);
    AllHoldConcat(WithOptional(remove, r1, r2), WithOptional(remove, r3, r4), x);
    OptionalRow(remove, r1, r2, x);
    OptionalRow(remove, r3, r4, x);
    OptionalRow(remove, r5, r6, x);
    hide WithOptional;
    PartialRowValues(e, x, M, a, b, s);
  }

  lemma {:induction false} PartialRowValues(e: Edge, x: Vec, M: real, a: seq<Term>, b: seq<Term>, s: Var)
    ensures Eval([Term(Cond1(e), M)] + Negated(a) + [Term(s, 1.0)], x) == M * x(Cond1(e)) - Eval(a, x) + x(s)
    ensures Eval([Term(Cond1(e), -M), Term(s, -1.0)] + a, x) == -M * x(Cond1(e)) - x(s) + Eval(a, x)
    ensures Eval([Term(Cond2(e), M)] + Negated(b) + a, x) == M * x(Cond2(e)) - Eval(b, x) + Eval(a, x)
    ensures Eval([Term(Cond2(e), -M)] + b + Negated(a), x) == -M * x(Cond2(e)) + Eval(b, x) - Eval(a, x)
    ensures Eval([Term(Cond1(e), 1.0), Term(Cond2(e), 1.0), Term(Switch(e), -1.0)], x) == x(Cond1(e)) + x(Cond2(e)) - x(Switch(e))
    ensures Eval([Term(Switch(e), 2.0), Term(Cond1(e), -1.0), Term(Cond2(e), -1.0)], x) == 2.0 * x(Switch(e)) - x(Cond1(e)) - x(Cond2(e))
  {
    hide Eval;
    EvalNegated(a, x);
    EvalNegated(b, x);
    var c1, c2 := Cond1(e), Cond2(e);
    EvalConcat([Term(c1, M)] + Negated(a), [Term(s, 1.0)], x);
    EvalConcat([Term(c1, M)], Negated(a), x);
    EvalConcat([Term(c1, -M), Term(s, -1.0)], a, x);
    EvalConcat([Term(c2, M)] + Negated(b), a, x);
    EvalConcat([Term(c2, M)], Negated(b), x);
    EvalConcat([Term(c2, -M)] + b, Negated(a), x);
    EvalConcat([Term(c2, -M)], b, x);
    EvalOne(c1, M, x);
    EvalOne(s, 1.0, x);
    EvalTwo(c1, -M, s, -1.0, x);
    EvalOne(c2, M, x);
    EvalOne(c2, -M, x);
    EvalThree(c1, 1.0, c2, 1.0, Switch(e), -1.0, x);
    EvalThree(Switch(e), 2.0, c1, -1.0, c2, -1.0, x);
  }

  // ---------- soundness ----------

  lemma {:induction false} BinaryValues(r: real)
    requires Binary(r)
    ensures r == 0.0 || r == 1.0
  {
  }

  ghost predicate EndsAgree(p: Problem, x: Vec, pl: Placement, e: Edge)
    requires Sized(p, pl) && ProperEdge(p, e)
  {
    && (e.from.Gpu? ==> Agrees(p, x, pl, e.from.id))
    && (e.to.Gpu? ==> Agrees(p, x, pl, e.to.id))
  }

  lemma {:induction false} PartialSystemOpens(full: bool, M: real, endA: real, startB: real, endB: real, c1: real, c2: real)
    requires PartialSystem(full, M, endA, startB, endB, 1.0, c1, c2) && Binary(c1) && Binary(c2)
    ensures startB <= endA && endA + 1.0 <= endB
  {
    BinaryValues(c1);
    BinaryValues(c2);
  }

  /** An edge that is switched on is open. */
  lemma {:induction false} SwitchedOnIsOpen(p: Problem, x: Vec, pl: Placement, e: Edge)
    requires PlacementOk(p, pl) && ProperEdge(p, e) && EndsAgree(p, x, pl, e) && EdgeBounds(p, x, e)
    requires AllHold(SwitchRows(p, e), x) && x(Switch(e)) == 1.0
    ensures Open(p, pl, e)
  {
    hide AllHold, Eval, EndTerms, OneHot;
    if e.from == Source {
      SourceRowsMean(p, e, x);
    } else if e.to == Sink {
      SinkRowsMean(p, e, x);
    } else if p.partialInference {
      PartialRowsMean(p, e, x);
      PartialSystemOpens(!p.removeRedundant, p.numLayers as real + 1.0, Eval(EndTerms(p, e.from.id), x), x(Start(e.to.id)),
                         Eval(EndTerms(p, e.to.id), x), x(Cond1(e)), x(Cond2(e)));
    } else {
      StrictRowsMean(p, e, x);
    }
  }

  lemma {:induction false} EdgeFlowSound(p: Problem, x: Vec, pl: Placement, e: Edge)
    requires PlacementOk(p, pl) && ProperEdge(p, e) && EndsAgree(p, x, pl, e) && EdgeBounds(p, x, e)
    requires EdgeRowsHold(p, x, e) && EdgeThroughput(p.links, e) >= 0.0
    ensures EdgeFlowOk(p, pl, FlowOf(x), e)
  {
    hide AllHold, EdgeThroughput, SwitchRows, EndsAgree, PlacementOk, Open;
    var t := EdgeThroughput(p.links, e);
    EvalTwo(Flow(e), 1.0, Switch(e), -t, x);
    hide Eval;
    BinaryValues(x(Switch(e)));
    if x(Switch(e)) == 1.0 {
      SwitchedOnIsOpen(p, x, pl, e);
    }
  }

  lemma {:induction false} RecordedNonNegative(links: seq<Link>, from: Node, to: Node)
    requires forall j :: 0 <= j < |links| ==> links[j].throughput >= 0.0
    ensures Recorded(links, from, to).Some? ==> Recorded(links, from, to).value >= 0.0
  {
    if links != [] {
      RecordedNonNegative(links[..|links| - 1], from, to);
    }
  }

  lemma {:induction false} ThroughputNonNegative(p: Problem, e: Edge)
    requires WellFormed(p)
    ensures EdgeThroughput(p.links, e) >= 0.0
  {
    RecordedNonNegative(p.links, e.from, e.to);
    RecordedNonNegative(p.links, e.to, e.from);
  }

  lemma {:induction false} GpuFlowSound(p: Problem, edges: seq<Edge>, x: Vec, pl: Placement, i: nat)
    requires EdgeList(p, edges) && ProperEdges(p, edges) && Sized(p, pl) && i < |p.gpus|
    requires OneHot(x, i, 1, p.gpus[i].maxLayers, pl.count[i])
    ensures Holds(ConservationRow(p, edges, i), x) && Holds(CapacityRow(p, edges, i), x)
       <==> GpuFlowOk(p, edges, pl, FlowOf(x), i)
  {
    var m, t := p.gpus[i].maxLayers, GpuThroughput(p.gpus[i]);
    hide Eval;
    InTermsAreInflow(p, edges, i, x);
    OutTermsAreOutflow(p, edges, i, x);
    EvalNegated(OutTerms(p, edges, i), x);
    EvalConcat(InTerms(p, edges, i), Negated(OutTerms(p, edges, i)), x);
    EvalNegated(HoldTerms(i, t, 1, m), x);
    EvalConcat(InTerms(p, edges, i), Negated(HoldTerms(i, t, 1, m)), x);
    PickedCoefficient(x, i, t, 1, m, m, pl.count[i]);
  }

  /** Soundness: a feasible vector decodes to a solution whose source flow is the vector's objective. */
  lemma {:induction false} Sound(p: Problem, edges: seq<Edge>, x: Vec)
    requires WellFormed(p) && EdgeList(p, edges) && ProperEdges(p, edges) && Feasible(p, edges, x)
    ensures Solution(p, edges, Decode(p, x), FlowOf(x))
    ensures Outflow(edges, FlowOf(x), Source) == Objective(edges, x, |p.gpus|)
  {
    hide AllHold, Holds, SwitchRows, FlowRow, PlacementRows, ConservationRow, CapacityRow, GpuFlowOk, EdgeFlowOk, Decode, OneHot, Eval, EdgeThroughput;
    RowByRow(p, edges, x);
    var pl := Decode(p, x);
    forall i | 0 <= i < |p.gpus|
      ensures Agrees(p, x, pl, i) && GpuFlowOk(p, edges, pl, FlowOf(x), i)
      ensures 0 <= pl.start[i] && 1 <= pl.count[i] <= p.gpus[i].maxLayers && End(pl, i) <= p.numLayers
    {
      assert GpuRowsHold(p, edges, x, i) && GpuBounds(p, x, i);
      DecodedRange(p, x, i);
      GpuFlowSound(p, edges, x, pl, i);
    }
    forall j | 0 <= j < |edges| ensures EdgeFlowOk(p, pl, FlowOf(x), edges[j]) {
      assert EdgeRowsHold(p, x, edges[j]) && EdgeBounds(p, x, edges[j]) && ProperEdge(p, edges[j]);
      ThroughputNonNegative(p, edges[j]);
      EdgeFlowSound(p, x, pl, edges[j]);
    }
    ObjectiveIsSourceFlow(p, edges, x);
  }

  // ---------- completeness ----------

  function Indicator(b: bool): real { if b then 1.0 else 0.0 }

  predicate BetweenGpus(p: Problem, e: Edge) {
    e.from.Gpu? && e.to.Gpu? && e.from.id < |p.gpus| && e.to.id < |p.gpus|
  }

  /** The vector of a solution: switches and conditions have their exact truth values. */
  function Encode(p: Problem, pl: Placement, f: FlowMap): Vec
    requires Sized(p, pl)
  {
    (v: Var) => Encoded(p, pl, f, v)
  }

  function Encoded(p: Problem, pl: Placement, f: FlowMap, v: Var): real
    requires Sized(p, pl)
  {
    match v
    case Start(i) => if i < |p.gpus| then pl.start[i] as real else 0.0
    case Hold(i, k) => Indicator(i < |p.gpus| && pl.count[i] == k)
    case Flow(e) => f(e)
    case Switch(e) => Indicator(ProperEdge(p, e) && Open(p, pl, e))
    case Cond1(e) => Indicator(BetweenGpus(p, e) && pl.start[e.to.id] <= End(pl, e.from.id))
    case Cond2(e) => Indicator(BetweenGpus(p, e) && End(pl, e.from.id) < End(pl, e.to.id))
    case Bottleneck => 0.0
  }

  lemma {:induction false} EncodedAgrees(p: Problem, pl: Placement, f: FlowMap, i: nat)
    requires PlacementOk(p, pl) && i < |p.gpus|
    ensures Agrees(p, Encode(p, pl, f), pl, i) && GpuBounds(p, Encode(p, pl, f), i)
    ensures AllHold(PlacementRows(p, i), Encode(p, pl, f))
  {
    var x := Encode(p, pl, f);
    forall j: nat | 1 <= j <= p.gpus[i].maxLayers ensures x(Hold(i, j)) == (if j == pl.count[i] then 1.0 else 0.0) {
      assert x(Hold(i, j)) == Encoded(p, pl, f, Hold(i, j));
    }
    EndAgrees(p, x, pl, i);
    hide Encode;
    PlacementRowsMean(p, x, i);
    PickedCoefficient(x, i, One, 1, p.gpus[i].maxLayers, p.gpus[i].maxLayers, pl.count[i]);
  }

  lemma {:induction false} PartialSystemComplete(full: bool, L: int, endA: int, startB: int, endB: int)
    requires 0 <= startB <= L && 0 <= endA <= L && 0 <= endB <= L && 1 <= endB
    ensures var c1, c2 := startB <= endA, endA < endB;
            PartialSystem(full, L as real + 1.0, endA as real, startB as real, endB as real,
                          Indicator(c1 && c2), Indicator(c1), Indicator(c2))
  {
  }

  /** With exact truth values every switch row holds, except the full system's sink row for a one-layer model. */
  lemma {:induction false} EncodedSwitchRows(p: Problem, pl: Placement, f: FlowMap, e: Edge)
    requires PlacementOk(p, pl) && ProperEdge(p, e)
    requires p.removeRedundant || p.numLayers >= 2 || e.to != Sink
    ensures AllHold(SwitchRows(p, e), Encode(p, pl, f))
  {
    hide AllHold, Eval, EndTerms, OneHot, GpuBounds, PlacementRows;
    var x, L := Encode(p, pl, f), p.numLayers;
    if e.from.Gpu? {
      EncodedAgrees(p, pl, f, e.from.id);
    }
    if e.to.Gpu? {
      EncodedAgrees(p, pl, f, e.to.id);
    }
    assert x(Switch(e)) == Indicator(Open(p, pl, e));
    if e.from == Source {
      hide Encode, Encoded;
      SourceRowsMean(p, e, x);
    } else if e.to == Sink {
      hide Encode, Encoded;
      SinkRowsMean(p, e, x);
    } else if p.partialInference {
      assert x(Cond1(e)) == Indicator(pl.start[e.to.id] <= End(pl, e.from.id));
      assert x(Cond2(e)) == Indicator(End(pl, e.from.id) < End(pl, e.to.id));
      hide Encode, Encoded, PartialSystem, Indicator;
      PartialRowsMean(p, e, x);
      PartialSystemComplete(!p.removeRedundant, L, End(pl, e.from.id), pl.start[e.to.id], End(pl, e.to.id));
    } else {
      hide Encode, Encoded;
      StrictRowsMean(p, e, x);
      StrictSystemComplete(L, End(pl, e.from.id), pl.start[e.to.id]);
    }
  }

  lemma {:induction false} StrictSystemComplete(L: int, endA: int, startB: int)
    requires 0 <= startB <= L && 0 <= endA <= L
    ensures var sw := Indicator(endA == startB);
            L as real * sw - startB as real + endA as real <= L as real && L as real * sw + startB as real - endA as real <= L as real
  {
  }

  lemma {:induction false} EncodedFlowRow(p: Problem, pl: Placement, f: FlowMap, e: Edge)
    requires Sized(p, pl) && ProperEdge(p, e) && EdgeFlowOk(p, pl, f, e)
    ensures Holds(FlowRow(p, e), Encode(p, pl, f)) && EdgeBounds(p, Encode(p, pl, f), e)
  {
    var x := Encode(p, pl, f);
    EvalTwo(Flow(e), 1.0, Switch(e), -EdgeThroughput(p.links, e), x);
  }

  lemma {:induction false} SameSum(edges: seq<Edge>, f: FlowMap, g: FlowMap, sel: Edge -> bool)
    requires forall e :: f(e) == g(e)
    ensures SumWhere(edges, f, sel) == SumWhere(edges, g, sel)
  {
    if edges != [] {
      SameSum(edges[1..], f, g, sel);
    }
  }

  /**
   Completeness: a solution encodes to a feasible vector that carries the same flow and
   decodes back to the same placement, unless the full system is built for a one-layer model.
   */
  lemma {:induction false} Complete(p: Problem, edges: seq<Edge>, pl: Placement, f: FlowMap)
    requires WellFormed(p) && EdgeList(p, edges) && ProperEdges(p, edges) && Solution(p, edges, pl, f)
    requires p.removeRedundant || p.numLayers >= 2 || forall j :: 0 <= j < |edges| ==> edges[j].to != Sink
    ensures Feasible(p, edges, Encode(p, pl, f))
    ensures Decode(p, Encode(p, pl, f)) == pl
    ensures forall e :: FlowOf(Encode(p, pl, f))(e) == f(e)
    ensures Objective(edges, Encode(p, pl, f), |p.gpus|) == Outflow(edges, f, Source)
  {
    hide AllHold, HelixRows, GpuBounds, EdgeBounds, GpuRowsHold, EdgeRowsHold, EdgeFlowOk, GpuFlowOk, Encode,
         EdgeList, WellFormed, ProperEdge, SumWhere, Objective, Chosen;
    var x := Encode(p, pl, f);
    EncodedFlow(p, pl, f);
    forall i | 0 <= i < |p.gpus|
      ensures GpuBounds(p, x, i) && GpuRowsHold(p, edges, x, i)
      ensures Decode(p, x).start[i] == pl.start[i] && Decode(p, x).count[i] == pl.count[i]
    {
      EncodedGpu(p, edges, pl, f, i);
    }
    forall j | 0 <= j < |edges| ensures EdgeBounds(p, x, edges[j]) && EdgeRowsHold(p, x, edges[j]) {
      EncodedEdge(p, pl, f, edges[j]);
    }
    RowByRow(p, edges, x);
    assert Decode(p, x) == pl;
    ObjectiveIsSourceFlow(p, edges, x);
    SameSum(edges, FlowOf(x), f, OutOf(Source));
  }

  lemma {:induction false} EncodedGpu(p: Problem, edges: seq<Edge>, pl: Placement, f: FlowMap, i: nat)
    requires EdgeList(p, edges) && ProperEdges(p, edges)
    requires PlacementOk(p, pl) && i < |p.gpus| && GpuFlowOk(p, edges, pl, f, i)
    ensures var x := Encode(p, pl, f);
            && GpuBounds(p, x, i) && GpuRowsHold(p, edges, x, i)
            && Decode(p, x).start[i] == pl.start[i] && Decode(p, x).count[i] == pl.count[i]
  {
    var x := Encode(p, pl, f);
    hide AllHold, Holds, PlacementRows, ConservationRow, CapacityRow, Encode, Eval;
    EncodedFlow(p, pl, f);
    EncodedAgrees(p, pl, f, i);
    ChosenIsTheOne(x, i, 1, p.gpus[i].maxLayers, 1, pl.count[i]);
    SameSum(edges, FlowOf(x), f, Into(Gpu(i)));
    SameSum(edges, FlowOf(x), f, OutOf(Gpu(i)));
    GpuFlowSound(p, edges, x, pl, i);
  }

  lemma {:induction false} EncodedEdge(p: Problem, pl: Placement, f: FlowMap, e: Edge)
    requires PlacementOk(p, pl) && ProperEdge(p, e) && EdgeFlowOk(p, pl, f, e)
    requires p.removeRedundant || p.numLayers >= 2 || e.to != Sink
    ensures EdgeBounds(p, Encode(p, pl, f), e) && EdgeRowsHold(p, Encode(p, pl, f), e)
  {
    hide AllHold, Holds, SwitchRows, FlowRow, Encode;
    EncodedFlowRow(p, pl, f, e);
    EncodedSwitchRows(p, pl, f, e);
  }

  lemma {:induction false} EncodedFlow(p: Problem, pl: Placement, f: FlowMap)
    requires Sized(p, pl)
    ensures forall e :: FlowOf(Encode(p, pl, f))(e) == f(e)
  {
  }

  // ---------- the exact limits of the full system ----------

  /** The full system's sink row asks 0 >= end for a one-layer model: no vector satisfies it. */
  lemma {:induction false} OneLayerInfeasible(p: Problem, edges: seq<Edge>, x: Vec, j: nat)
    requires WellFormed(p) && ProperEdges(p, edges) && j < |edges| && edges[j].to == Sink
    requires !p.removeRedundant && p.numLayers == 1
    ensures !Feasible(p, edges, x)
  {
    hide AllHold, FlowRow, PlacementRows, ConservationRow, CapacityRow, Eval, EndTerms, HelixRows;
    if Feasible(p, edges, x) {
      RowByRow(p, edges, x);
      var e := edges[j];
      assert EdgeRowsHold(p, x, e) && ProperEdge(p, e);
      var i := e.from.id;
      assert GpuRowsHold(p, edges, x, i) && GpuBounds(p, x, i);
      DecodedRange(p, x, i);
      SinkRowsMean(p, e, x);
    }
  }

  ghost predicate HasVector(p: Problem, edges: seq<Edge>, pl: Placement, f: FlowMap)
    requires ProperEdges(p, edges)
  {
    exists x: Vec :: Feasible(p, edges, x) && Decode(p, x) == pl && forall e :: FlowOf(x)(e) == f(e)
  }

  /** Every solution has a vector, exactly when the model has two layers, or the redundant rows are removed, or nothing reaches the sink. */
  lemma {:induction false} CompleteExactly(p: Problem, edges: seq<Edge>, pl: Placement, f: FlowMap)
    requires WellFormed(p) && EdgeList(p, edges) && ProperEdges(p, edges) && Solution(p, edges, pl, f)
    ensures HasVector(p, edges, pl, f) <==>
              p.removeRedundant || p.numLayers >= 2 || forall j :: 0 <= j < |edges| ==> edges[j].to != Sink
  {
    hide Feasible, Solution, EdgeList, Encode, Decode, ProperEdge, FlowOf;
    if p.removeRedundant || p.numLayers >= 2 || forall j :: 0 <= j < |edges| ==> edges[j].to != Sink {
      Complete(p, edges, pl, f);
    } else {
      var j :| 0 <= j < |edges| && edges[j].to == Sink;
      forall x: Vec ensures !Feasible(p, edges, x) {
        OneLayerInfeasible(p, edges, x, j);
      }
    }
  }

  lemma {:induction false} PartialSystemExact(M: real, endA: int, startB: int, endB: int, sw: real, c1: real, c2: real)
    requires PartialSystem(true, M, endA as real, startB as real, endB as real, sw, c1, c2)
    requires Binary(c1) && Binary(c2) && Binary(sw)
    ensures sw == 1.0 <==> startB <= endA < endB
  {
    BinaryValues(c1);
    BinaryValues(c2);
    BinaryValues(sw);
  }

  /**
   In the full system a switch is on exactly when its edge is open, at the terminals and with
   partial inference; for the remaining edges see HelixSwitch.
   */
  lemma {:induction false} FullSwitchIsExact(p: Problem, edges: seq<Edge>, x: Vec, j: nat)
    requires WellFormed(p) && EdgeList(p, edges) && ProperEdges(p, edges) && Feasible(p, edges, x) && j < |edges|
    requires !p.removeRedundant
    requires p.partialInference || edges[j].from == Source || edges[j].to == Sink
    ensures x(Switch(edges[j])) == 1.0 <==> Open(p, Decode(p, x), edges[j])
  {
    hide AllHold, FlowRow, PlacementRows, ConservationRow, CapacityRow, Eval, EndTerms, HelixRows, EdgeList, WellFormed, Chosen, OneHot, Round;
    RowByRow(p, edges, x);
    var e, pl := edges[j], Decode(p, x);
    assert EdgeRowsHold(p, x, e) && ProperEdge(p, e) && EdgeBounds(p, x, e);
    BinaryValues(x(Switch(e)));
    if e.from.Gpu? {
      assert GpuRowsHold(p, edges, x, e.from.id) && GpuBounds(p, x, e.from.id);
      DecodedRange(p, x, e.from.id);
    }
    if e.to.Gpu? {
      assert GpuRowsHold(p, edges, x, e.to.id) && GpuBounds(p, x, e.to.id);
      DecodedRange(p, x, e.to.id);
    }
    hide GpuRowsHold, GpuBounds;
    if e.from == Source {
      SourceRowsMean(p, e, x);
    } else if e.to == Sink {
      SinkRowsMean(p, e, x);
    } else {
      PartialRowsMean(p, e, x);
      PartialSystemExact(p.numLayers as real + 1.0, End(pl, e.from.id), pl.start[e.to.id], End(pl, e.to.id),
                         x(Switch(e)), x(Cond1(e)), x(Cond2(e)));
    }
  }

  // ---------- the redundant rows ----------

  /** Whether rows are removed does not change what a solution is. */
  lemma {:induction false} SameSolutions(p: Problem, q: Problem, edges: seq<Edge>, pl: Placement, f: FlowMap)
    requires q == p.(removeRedundant := q.removeRedundant) && ProperEdges(p, edges)
    ensures ProperEdges(q, edges)
    ensures Solution(p, edges, pl, f) <==> Solution(q, edges, pl, f)
  {
    hide SumWhere, EdgeThroughput, GpuThroughput;
    assert forall e :: ProperEdge(p, e) <==> ProperEdge(q, e);
    if PlacementOk(p, pl) {
      forall j | 0 <= j < |edges| ensures EdgeFlowOk(p, pl, f, edges[j]) <==> EdgeFlowOk(q, pl, f, edges[j]) {
        assert Open(p, pl, edges[j]) <==> Open(q, pl, edges[j]);
      }
      forall i | 0 <= i < |p.gpus| ensures GpuFlowOk(p, edges, pl, f, i) <==> GpuFlowOk(q, edges, pl, f, i) {
      }
    }
  }

  /**
   Dropping the rows marked redundant loses nothing and gains nothing: a vector feasible for
   one system can be repaired, by giving switches and conditions their truth values, to one
   feasible for the other with the same flow on every edge and the same objective.
   */
  lemma {:induction false} RedundantRowsDoNotMatter(p: Problem, q: Problem, edges: seq<Edge>, x: Vec)
    requires WellFormed(p) && EdgeList(p, edges) && ProperEdges(p, edges) && Feasible(p, edges, x)
    requires q == p.(removeRedundant := !p.removeRedundant) && p.numLayers >= 2
    ensures ProperEdges(q, edges)
    ensures var y := Encode(q, Decode(q, x), FlowOf(x));
            && Feasible(q, edges, y)
            && (forall e :: y(Flow(e)) == x(Flow(e)))
            && Objective(edges, y, |q.gpus|) == Objective(edges, x, |p.gpus|)
  {
    hide Feasible, Solution, EdgeList, Encode, ProperEdge, Objective, Outflow;
    Sound(p, edges, x);
    SameSolutions(p, q, edges, Decode(p, x), FlowOf(x));
    assert Decode(q, x) == Decode(p, x);
    assert EdgeList(q, edges) by {
      SameEdges(p, q, edges);
    }
    assert WellFormed(q) by {
      assert forall n :: KnownNode(p, n) <==> KnownNode(q, n);
    }
    Complete(q, edges, Decode(q, x), FlowOf(x));
    var y := Encode(q, Decode(q, x), FlowOf(x));
    forall e ensures y(Flow(e)) == x(Flow(e)) {
      assert FlowOf(y)(e) == FlowOf(x)(e);
    }
  }

  lemma {:induction false} SameEdges(p: Problem, q: Problem, edges: seq<Edge>)
    requires q.links == p.links && EdgeList(p, edges)
    ensures EdgeList(q, edges)
  {
  }
}

/**
 The single-pipeline placement problem: one range of layers per GPU, in GPU order, that
 maximises the slowest stage. Every feasible vector yields a partition of the model, and
 every such partition is a solution of the full flow problem with the same value, so the
 full optimum is never below the single-pipeline one.
 */
module HelixPipeline {
  import opened Wrappers
  import opened Counting
  import opened HelixEncoding
  import opened HelixMeaning
  import opened HelixTheorems

  datatype Pipeline = Pipeline(numLayers: nat, minLayers: nat, maxLayers: seq<nat>, table: seq<map<nat, real>>)
  {
    /** Every GPU has some layer count to choose from. */
    predicate WellFormed() {
      |maxLayers| == |table| && forall i :: 0 <= i < |maxLayers| ==> minLayers <= maxLayers[i]
    }

    function Width(i: nat): nat
      requires WellFormed() && i < |maxLayers|
    {
      maxLayers[i] - minLayers + 1
    }

    function Throughput(i: nat): nat -> real
      requires i < |table|
    {
      (k: nat) => if k in table[i] then table[i][k] else 0.0
    }
  }

  // ---------- the system ----------

  function OneConfigRow(q: Pipeline, i: nat): Row
    requires q.WellFormed() && i < |q.maxLayers|
  {
    Eq(HoldTerms(i, One, q.minLayers, q.Width(i)), 1.0)
  }

  function AllCountTerms(q: Pipeline, n: nat): seq<Term>
    requires q.WellFormed() && n <= |q.maxLayers|
  {
    if n == 0 then [] else AllCountTerms(q, n - 1) + HoldTerms(n - 1, Count, q.minLayers, q.Width(n - 1))
  }

  function AllLayersRow(q: Pipeline): Row
    requires q.WellFormed()
  {
    Eq(AllCountTerms(q, |q.maxLayers|), q.numLayers as real)
  }

  function BottleneckRow(q: Pipeline, i: nat): Row
    requires q.WellFormed() && i < |q.maxLayers|
  {
    Leq([Term(Bottleneck, 1.0)] + Negated(HoldTerms(i, q.Throughput(i), q.minLayers, q.Width(i))), 0.0)
  }

  ghost predicate FeasiblePipeline(q: Pipeline, x: Vec)
    requires q.WellFormed()
  {
    && x(Bottleneck) >= 0.0
    && (forall i, k :: 0 <= i < |q.maxLayers| && q.minLayers <= k <= q.maxLayers[i] ==> Binary(x(Hold(i, k))))
    && (forall i :: 0 <= i < |q.maxLayers| ==> Holds(OneConfigRow(q, i), x))
    && Holds(AllLayersRow(q), x)
    && (forall i :: 0 <= i < |q.maxLayers| ==> Holds(BottleneckRow(q, i), x))
  }

  /** The rows as the loops emit them: one configuration per GPU, all layers, no stage slower than the bottleneck. */
  method BuildPipelineRows(q: Pipeline) returns (rows: seq<Row>)
    requires q.WellFormed()
    ensures var n := |q.maxLayers|;
            && |rows| == n + 1 + n && rows[n] == AllLayersRow(q)
            && (forall i :: 0 <= i < n ==> rows[i] == OneConfigRow(q, i) && rows[n + 1 + i] == BottleneckRow(q, i))
  {
    hide HoldTerms, Negated;
    var n := |q.maxLayers|;
    rows := [];
    for i := 0 to n
      invariant |rows| == i && forall j :: 0 <= j < i ==> rows[j] == OneConfigRow(q, j)
    {
      var ones := CountTerms(q, i, One);
      rows := rows + [Eq(ones, 1.0)];
    }
    var all: seq<Term> := [];
    for i := 0 to n
      invariant all == AllCountTerms(q, i)
    {
      var counts := CountTerms(q, i, Count);
      all := all + counts;
    }
    rows := rows + [Eq(all, q.numLayers as real)];
    for i := 0 to n
      invariant |rows| == n + 1 + i && rows[n] == AllLayersRow(q)
      invariant forall j :: 0 <= j < n ==> rows[j] == OneConfigRow(q, j)
      invariant forall j :: 0 <= j < i ==> rows[n + 1 + j] == BottleneckRow(q, j)
    {
      var row := SpeedTerms(q, i);
      rows := rows + [Leq([Term(Bottleneck, 1.0)] + row, 0.0)];
    }
  }

  method CountTerms(q: Pipeline, i: nat, c: nat -> real) returns (terms: seq<Term>)
    requires q.WellFormed() && i < |q.maxLayers|
    ensures terms == HoldTerms(i, c, q.minLayers, q.Width(i))
  {
    terms := [];
    for k := q.minLayers to q.maxLayers[i] + 1
      invariant terms == HoldTerms(i, c, q.minLayers, k - q.minLayers)
    {
      terms := terms + [Term(Hold(i, k), c(k))];
    }
  }

  /** Minus the throughput of each layer count, times its choice. */
  method SpeedTerms(q: Pipeline, i: nat) returns (terms: seq<Term>)
    requires q.WellFormed() && i < |q.maxLayers|
    ensures terms == Negated(HoldTerms(i, q.Throughput(i), q.minLayers, q.Width(i)))
  {
    terms := [];
    for k := q.minLayers to q.maxLayers[i] + 1
      invariant terms == Negated(HoldTerms(i, q.Throughput(i), q.minLayers, k - q.minLayers))
    {
      var speed := if k in q.table[i] then q.table[i][k] else 0.0;
      NegatedAppend(HoldTerms(i, q.Throughput(i), q.minLayers, k - q.minLayers), Term(Hold(i, k), speed));
      terms := terms + [Term(Hold(i, k), -speed)];
    }
  }

  // ---------- extraction ----------

  /** The layer counts read off a vector, in GPU order. */
  function Partition(q: Pipeline, x: Vec, n: nat): (r: seq<nat>)
    requires q.WellFormed() && n <= |q.maxLayers|
    ensures |r| == n
  {
    if n == 0 then [] else Partition(q, x, n - 1) + [Chosen(x, n - 1, q.minLayers, q.maxLayers[n - 1])]
  }

  function Total(counts: seq<nat>): nat {
    if counts == [] then 0 else Total(counts[..|counts| - 1]) + counts[|counts| - 1]
  }

  datatype ExtractError = NoAssignment(gpu: nat) | WrongTotal

  /** Extraction as the solver's caller performs it, with its two error exits. */
  method Extract(q: Pipeline, x: Vec) returns (r: Result<seq<nat>, ExtractError>)
    requires q.WellFormed()
    ensures var counts := Partition(q, x, |q.maxLayers|);
            if exists i :: 0 <= i < |counts| && counts[i] == 0 then r.Failure? && r.error.NoAssignment?
            else if Total(counts) != q.numLayers then r == Failure(WrongTotal)
            else r == Success(counts)
  {
    var partition: seq<nat> := [];
    var i := 0;
    while i < |q.maxLayers|
      invariant 0 <= i <= |q.maxLayers| && partition == Partition(q, x, i)
      invariant forall j :: 0 <= j < i ==> partition[j] > 0
    {
      var chosen := 0;
      for k := q.minLayers to q.maxLayers[i] + 1
        invariant chosen == 0 && Chosen(x, i, q.minLayers, q.maxLayers[i]) == Chosen(x, i, k, q.maxLayers[i])
      {
        if RoundsToOne(x(Hold(i, k))) {
          chosen := k;
          break;
        }
      }
      assert chosen == Chosen(x, i, q.minLayers, q.maxLayers[i]);
      if chosen == 0 {
        LaterKeeps(q, x, i, |q.maxLayers|);
        return Failure(NoAssignment(i));
      }
      partition := partition + [chosen];
      i := i + 1;
    }
    var total := Sum(partition);
    if total != q.numLayers {
      return Failure(WrongTotal);
    }
    r := Success(partition);
  }

  method Sum(counts: seq<nat>) returns (total: nat)
    ensures total == Total(counts)
  {
    total := 0;
    var i := 0;
    while i < |counts|
      invariant 0 <= i <= |counts| && total == Total(counts[..i])
    {
      assert counts[..i + 1][..i] == counts[..i];
      total := total + counts[i];
      i := i + 1;
    }
    assert counts[..|counts|] == counts;
  }

  lemma {:induction false} LaterKeeps(q: Pipeline, x: Vec, i: nat, n: nat)
    requires q.WellFormed() && i < n <= |q.maxLayers|
    ensures Partition(q, x, n)[i] == Chosen(x, i, q.minLayers, q.maxLayers[i])
  {
    if i < n - 1 {
      LaterKeeps(q, x, i, n - 1);
    }
  }

  // ---------- a feasible vector is a partition ----------

  lemma {:induction false} StageOf(q: Pipeline, x: Vec, i: nat)
    requires q.WellFormed() && FeasiblePipeline(q, x) && i < |q.maxLayers|
    ensures var k := Partition(q, x, |q.maxLayers|)[i];
            && OneHot(x, i, q.minLayers, q.Width(i), k)
            && x(Bottleneck) <= q.Throughput(i)(k)
  {
    hide Eval;
    assert Holds(OneConfigRow(q, i), x) && Holds(BottleneckRow(q, i), x);
    var k := ExactlyOne(x, i, q.minLayers, q.Width(i));
    ChosenIsTheOne(x, i, q.minLayers, q.Width(i), q.minLayers, k);
    LaterKeeps(q, x, i, |q.maxLayers|);
    var t := HoldTerms(i, q.Throughput(i), q.minLayers, q.Width(i));
    EvalConcat([Term(Bottleneck, 1.0)], Negated(t), x);
    EvalOne(Bottleneck, 1.0, x);
    EvalNegated(t, x);
    PickedCoefficient(x, i, q.Throughput(i), q.minLayers, q.Width(i), q.Width(i), k);
  }

  lemma {:induction false} CountsAddUp(q: Pipeline, x: Vec, n: nat)
    requires q.WellFormed() && FeasiblePipeline(q, x) && n <= |q.maxLayers|
    ensures Eval(AllCountTerms(q, n), x) == Total(Partition(q, x, n)) as real
  {
    if n > 0 {
      hide FeasiblePipeline, Eval;
      var terms := HoldTerms(n - 1, Count, q.minLayers, q.Width(n - 1));
      CountsAddUp(q, x, n - 1);
      EvalConcat(AllCountTerms(q, n - 1), terms, x);
      StageOf(q, x, n - 1);
      LaterKeeps(q, x, n - 1, |q.maxLayers|);
      var k := Chosen(x, n - 1, q.minLayers, q.maxLayers[n - 1]);
      PickedCoefficient(x, n - 1, Count, q.minLayers, q.Width(n - 1), q.Width(n - 1), k);
      assert Partition(q, x, n)[..n - 1] == Partition(q, x, n - 1);
    } else {
      assert Eval([], x) == 0.0;
    }
  }

  /**
   The partition of a feasible vector adds up to the model and no stage is slower than the
   bottleneck variable, so extraction never reports a wrong total.
   */
  lemma {:induction false} PartitionSound(q: Pipeline, x: Vec)
    requires q.WellFormed() && FeasiblePipeline(q, x)
    ensures var counts := Partition(q, x, |q.maxLayers|);
            && Total(counts) == q.numLayers
            && (forall i :: 0 <= i < |counts| ==> q.minLayers <= counts[i] <= q.maxLayers[i])
            && (forall i :: 0 <= i < |counts| ==> x(Bottleneck) <= q.Throughput(i)(counts[i]))
            && (q.minLayers >= 1 ==> forall i :: 0 <= i < |counts| ==> counts[i] > 0)
  {
    var counts := Partition(q, x, |q.maxLayers|);
    CountsAddUp(q, x, |q.maxLayers|);
    assert Holds(AllLayersRow(q), x);
    hide FeasiblePipeline, Eval;
    forall i | 0 <= i < |counts|
      ensures q.minLayers <= counts[i] <= q.maxLayers[i] && x(Bottleneck) <= q.Throughput(i)(counts[i])
    {
      StageOf(q, x, i);
    }
  }

  // ---------- every partition has a feasible vector ----------

  /** Layer counts within bounds that add up to the model, with every stage at least as fast as z. */
  ghost predicate Admissible(q: Pipeline, counts: seq<nat>, z: real)
    requires q.WellFormed()
  {
    && |counts| == |q.maxLayers| && Total(counts) == q.numLayers && z >= 0.0
    && forall i :: 0 <= i < |counts| ==> q.minLayers <= counts[i] <= q.maxLayers[i] && z <= q.Throughput(i)(counts[i])
  }

  function EncodeCounts(counts: seq<nat>, z: real): Vec {
    (v: Var) => EncodedCount(counts, z, v)
  }

  function EncodedCount(counts: seq<nat>, z: real, v: Var): real {
    match v
    case Hold(i, k) => Indicator(i < |counts| && counts[i] == k)
    case Bottleneck => z
    case _ => 0.0
  }

  lemma {:induction false} EncodedStage(q: Pipeline, counts: seq<nat>, z: real, i: nat)
    requires q.WellFormed() && Admissible(q, counts, z) && i < |counts|
    ensures var x := EncodeCounts(counts, z);
            && OneHot(x, i, q.minLayers, q.Width(i), counts[i])
            && (forall k :: q.minLayers <= k <= q.maxLayers[i] ==> Binary(x(Hold(i, k))))
            && Holds(OneConfigRow(q, i), x) && Holds(BottleneckRow(q, i), x)
            && Chosen(x, i, q.minLayers, q.maxLayers[i]) == counts[i]
  {
    hide Eval, Total;
    var x, lo, n, k := EncodeCounts(counts, z), q.minLayers, q.Width(i), counts[i];
    forall j: nat | lo <= j < lo + n ensures x(Hold(i, j)) == (if j == k then 1.0 else 0.0) {
      assert x(Hold(i, j)) == EncodedCount(counts, z, Hold(i, j));
    }
    assert x(Bottleneck) == z;
    PickedCoefficient(x, i, One, lo, n, n, k);
    var t := HoldTerms(i, q.Throughput(i), lo, n);
    PickedCoefficient(x, i, q.Throughput(i), lo, n, n, k);
    EvalConcat([Term(Bottleneck, 1.0)], Negated(t), x);
    EvalOne(Bottleneck, 1.0, x);
    EvalNegated(t, x);
    ChosenIsTheOne(x, i, lo, n, lo, k);
  }

  lemma {:induction false} AdmissibleSizes(q: Pipeline, counts: seq<nat>, z: real)
    requires q.WellFormed() && Admissible(q, counts, z)
    ensures |counts| == |q.maxLayers| && Total(counts) == q.numLayers && z >= 0.0
  {
  }

  lemma {:induction false} EncodedTotal(q: Pipeline, counts: seq<nat>, z: real, n: nat)
    requires q.WellFormed() && Admissible(q, counts, z) && n <= |counts| == |q.maxLayers|
    ensures Eval(AllCountTerms(q, n), EncodeCounts(counts, z)) == Total(counts[..n]) as real
  {
    var x := EncodeCounts(counts, z);
    if n > 0 {
      hide Eval, EncodeCounts, OneHot, Holds, HoldTerms, Chosen, Admissible, AllCountTerms, Total;
      EncodedTotal(q, counts, z, n - 1);
      EncodedStage(q, counts, z, n - 1);
      OneStageMore(q, counts, n);
      EvalConcat(AllCountTerms(q, n - 1), HoldTerms(n - 1, Count, q.minLayers, q.Width(n - 1)), x);
      PickedCoefficient(x, n - 1, Count, q.minLayers, q.Width(n - 1), q.Width(n - 1), counts[n - 1]);
      WithinWidth(q, counts, z, n - 1);
    }
  }

  lemma {:induction false} OneStageMore(q: Pipeline, counts: seq<nat>, n: nat)
    requires q.WellFormed() && 1 <= n <= |counts| == |q.maxLayers|
    ensures AllCountTerms(q, n) == AllCountTerms(q, n - 1) + HoldTerms(n - 1, Count, q.minLayers, q.Width(n - 1))
    ensures Total(counts[..n]) == Total(counts[..n - 1]) + counts[n - 1]
  {
    assert counts[..n][..n - 1] == counts[..n - 1];
  }

  lemma {:induction false} WithinWidth(q: Pipeline, counts: seq<nat>, z: real, i: nat)
    requires q.WellFormed() && Admissible(q, counts, z) && i < |counts|
    ensures counts[i] < q.minLayers + q.Width(i)
  {
  }

  lemma {:induction false} EncodedPartition(q: Pipeline, counts: seq<nat>, z: real, n: nat)
    requires q.WellFormed() && Admissible(q, counts, z) && n <= |counts| == |q.maxLayers|
    ensures Partition(q, EncodeCounts(counts, z), n) == counts[..n]
  {
    if n > 0 {
      hide Eval, EncodeCounts, OneHot, Holds, HoldTerms, Chosen, Admissible;
      EncodedPartition(q, counts, z, n - 1);
      EncodedStage(q, counts, z, n - 1);
    }
  }

  /** Completeness: admissible layer counts have a feasible vector that reads back as those counts, with that bottleneck. */
  lemma {:induction false} PipelineComplete(q: Pipeline, counts: seq<nat>, z: real)
    requires q.WellFormed() && Admissible(q, counts, z)
    ensures FeasiblePipeline(q, EncodeCounts(counts, z)) && EncodeCounts(counts, z)(Bottleneck) == z
    ensures Partition(q, EncodeCounts(counts, z), |q.maxLayers|) == counts
  {
    var x := EncodeCounts(counts, z);
    assert x(Bottleneck) == z;
    hide Eval, EncodeCounts, OneHot, OneConfigRow, BottleneckRow, Admissible, Partition, Chosen, Total, AllCountTerms, Binary;
    AdmissibleSizes(q, counts, z);
    EncodedTotal(q, counts, z, |counts|);
    EncodedPartition(q, counts, z, |counts|);
    assert counts[..|counts|] == counts;
    assert Holds(AllLayersRow(q), x);
    hide Holds, AllLayersRow;
    forall i | 0 <= i < |counts|
      ensures Holds(OneConfigRow(q, i), x) && Holds(BottleneckRow(q, i), x)
      ensures forall k :: q.minLayers <= k <= q.maxLayers[i] ==> Binary(x(Hold(i, k)))
    {
      EncodedStage(q, counts, z, i);
    }
  }

  // ---------- when extraction can fail ----------

  /** Some feasible vector is rejected by extraction. */
  ghost predicate CanBeRejected(q: Pipeline)
    requires q.WellFormed()
  {
    exists x: Vec :: FeasiblePipeline(q, x) && exists i :: 0 <= i < |q.maxLayers| && Partition(q, x, |q.maxLayers|)[i] == 0
  }

  /** What the GPUs other than `skip` can hold together. */
  function Capacity(maxLayers: seq<nat>, skip: nat): nat {
    if maxLayers == [] then 0
    else
      var n := |maxLayers| - 1;
      Capacity(maxLayers[..n], skip) + if n == skip then 0 else maxLayers[n]
  }

  /** What the last GPU takes of the layers, unless it is left out. */
  function Share(maxLayers: seq<nat>, skip: nat, layers: nat): (take: nat)
    requires maxLayers != []
    ensures take <= layers && take <= maxLayers[|maxLayers| - 1]
  {
    var most := maxLayers[|maxLayers| - 1];
    if |maxLayers| - 1 == skip then 0 else if layers <= most then layers else most
  }

  /** As many of the layers as fit, from the last GPU down, leaving out `skip`. */
  function Fill(maxLayers: seq<nat>, skip: nat, layers: nat): (counts: seq<nat>)
    ensures |counts| == |maxLayers|
    ensures forall i :: 0 <= i < |counts| ==> counts[i] <= maxLayers[i] && (i == skip ==> counts[i] == 0)
  {
    if maxLayers == [] then []
    else
      var take := Share(maxLayers, skip, layers);
      Fill(maxLayers[..|maxLayers| - 1], skip, layers - take) + [take]
  }

  lemma {:induction false} FillsAll(maxLayers: seq<nat>, skip: nat, layers: nat)
    requires layers <= Capacity(maxLayers, skip)
    ensures Total(Fill(maxLayers, skip, layers)) == layers
    decreases |maxLayers|
  {
    if maxLayers != [] {
      var n, take := |maxLayers| - 1, Share(maxLayers, skip, layers);
      var rest := Fill(maxLayers[..n], skip, layers - take);
      FillsAll(maxLayers[..n], skip, layers - take);
      assert Fill(maxLayers, skip, layers) == rest + [take];
      hide Fill;
      assert (rest + [take])[..n] == rest;
    }
  }

  lemma {:induction false} TotalWithin(maxLayers: seq<nat>, counts: seq<nat>, skip: nat)
    requires |counts| == |maxLayers| && forall i :: 0 <= i < |counts| ==> counts[i] <= maxLayers[i] && (i == skip ==> counts[i] == 0)
    ensures Total(counts) <= Capacity(maxLayers, skip)
  {
    if counts != [] {
      var n := |counts| - 1;
      TotalWithin(maxLayers[..n], counts[..n], skip);
    }
  }

  /** For any tables: some feasible vector is rejected exactly when admissible layer counts leave a GPU without layers. */
  lemma {:induction false} RejectedCounts(q: Pipeline)
    requires q.WellFormed()
    ensures CanBeRejected(q) <==> exists counts, i :: Admissible(q, counts, 0.0) && 0 <= i < |counts| && counts[i] == 0
  {
    hide FeasiblePipeline, Partition, Total;
    if CanBeRejected(q) {
      var x: Vec :| FeasiblePipeline(q, x) && exists i :: 0 <= i < |q.maxLayers| && Partition(q, x, |q.maxLayers|)[i] == 0;
      var counts := Partition(q, x, |q.maxLayers|);
      PartitionSound(q, x);
      assert x(Bottleneck) >= 0.0 by { NonNegativeBottleneck(q, x); }
      assert Admissible(q, counts, 0.0);
    }
    if exists counts, i :: Admissible(q, counts, 0.0) && 0 <= i < |counts| && counts[i] == 0 {
      var counts, i :| Admissible(q, counts, 0.0) && 0 <= i < |counts| && counts[i] == 0;
      PipelineComplete(q, counts, 0.0);
      assert Partition(q, EncodeCounts(counts, 0.0), |q.maxLayers|)[i] == 0;
    }
  }

  lemma {:induction false} NonNegativeBottleneck(q: Pipeline, x: Vec)
    requires q.WellFormed() && FeasiblePipeline(q, x)
    ensures x(Bottleneck) >= 0.0
  {
  }

  /**
   When extraction can fail, exactly, for tables without negative entries: some feasible vector
   is rejected if and only if the minimum is zero and some GPU can be left out, because the
   others together can hold the model.
   */
  lemma {:induction false} RejectedExactly(q: Pipeline)
    requires q.WellFormed() && forall i, k :: 0 <= i < |q.table| && k in q.table[i] ==> q.table[i][k] >= 0.0
    ensures CanBeRejected(q) <==>
              q.minLayers == 0 && exists i :: 0 <= i < |q.maxLayers| && Capacity(q.maxLayers, i) >= q.numLayers
  {
    hide FeasiblePipeline, Partition, Capacity, Fill, Total;
    if CanBeRejected(q) {
      var x: Vec :| FeasiblePipeline(q, x) && exists i :: 0 <= i < |q.maxLayers| && Partition(q, x, |q.maxLayers|)[i] == 0;
      var counts := Partition(q, x, |q.maxLayers|);
      var i :| 0 <= i < |q.maxLayers| && counts[i] == 0;
      PartitionSound(q, x);
      TotalWithin(q.maxLayers, counts, i);
    }
    if q.minLayers == 0 && exists i :: 0 <= i < |q.maxLayers| && Capacity(q.maxLayers, i) >= q.numLayers {
      var i :| 0 <= i < |q.maxLayers| && Capacity(q.maxLayers, i) >= q.numLayers;
      var counts := Fill(q.maxLayers, i, q.numLayers);
      FillsAll(q.maxLayers, i, q.numLayers);
      PipelineComplete(q, counts, 0.0);
      assert Partition(q, EncodeCounts(counts, 0.0), |q.maxLayers|)[i] == 0;
    }
  }

  /** A concrete case: one layer, two GPUs, a minimum of zero; the vector that gives the layer to the first GPU is rejected. */
  lemma {:induction false} ZeroMinimumRejected() returns (q: Pipeline, x: Vec)
    ensures q == Pipeline(1, 0, [1, 1], [map[0 := 1.0, 1 := 1.0], map[0 := 1.0, 1 := 1.0]])
    ensures q.WellFormed() && FeasiblePipeline(q, x) && x(Bottleneck) == 1.0 && Partition(q, x, 2) == [1, 0]
  {
    q := Pipeline(1, 0, [1, 1], [map[0 := 1.0, 1 := 1.0], map[0 := 1.0, 1 := 1.0]]);
    var counts: seq<nat> := [1, 0];
    assert counts[..1] == [1] && counts[..1][..0] == [];
    assert Total(counts) == 1;
    PipelineComplete(q, counts, 1.0);
    x := EncodeCounts(counts, 1.0);
  }

  // ---------- the partition as a solution of the full problem ----------

  /** Source and sink joined to every GPU, and every two GPUs joined. */
  function FullyConnected(n: nat, terminal: real, between: real): seq<Link> {
    TerminalLinks(n, terminal) + GpuLinks(n, n, between)
  }

  function TerminalLinks(n: nat, t: real): seq<Link> {
    if n == 0 then [] else TerminalLinks(n - 1, t) + [Link(Source, Gpu(n - 1), t), Link(Gpu(n - 1), Sink, t)]
  }

  function GpuLinks(n: nat, m: nat, t: real): seq<Link> {
    if m == 0 then [] else GpuLinks(n, m - 1, t) + LinksFrom(m - 1, n, t)
  }

  function LinksFrom(i: nat, m: nat, t: real): seq<Link> {
    if m == 0 then [] else LinksFrom(i, m - 1, t) + (if i == m - 1 then [] else [Link(Gpu(i), Gpu(m - 1), t)])
  }

  method BuildFullyConnectedEdges(n: nat, terminal: real, between: real) returns (links: seq<Link>)
    ensures links == FullyConnected(n, terminal, between)
  {
    hide LinksFrom;
    links := [];
    for i := 0 to n
      invariant links == TerminalLinks(i, terminal)
    {
      links := links + [Link(Source, Gpu(i), terminal)];
      links := links + [Link(Gpu(i), Sink, terminal)];
    }
    assert links == TerminalLinks(n, terminal) + GpuLinks(n, 0, between);
    for i := 0 to n
      invariant links == TerminalLinks(n, terminal) + GpuLinks(n, i, between)
    {
      links := AddLinksFrom(links, i, n, between);
    }
  }

  /** The links from one GPU to every other one. */
  method AddLinksFrom(before: seq<Link>, i: nat, n: nat, between: real) returns (links: seq<Link>)
    ensures links == before + LinksFrom(i, n, between)
  {
    links := before;
    for j := 0 to n
      invariant links == before + LinksFrom(i, j, between)
    {
      if i != j {
        links := links + [Link(Gpu(i), Gpu(j), between)];
      }
    }
  }

  lemma {:induction false} HasTerminalLinks(n: nat, t: real, i: nat)
    requires i < n
    ensures Link(Source, Gpu(i), t) in TerminalLinks(n, t) && Link(Gpu(i), Sink, t) in TerminalLinks(n, t)
  {
    if i < n - 1 {
      HasTerminalLinks(n - 1, t, i);
    }
  }

  lemma {:induction false} HasLinksFrom(i: nat, m: nat, t: real, j: nat)
    requires j < m && i != j
    ensures Link(Gpu(i), Gpu(j), t) in LinksFrom(i, m, t)
  {
    if j < m - 1 {
      HasLinksFrom(i, m - 1, t, j);
    }
  }

  lemma {:induction false} HasGpuLinks(n: nat, m: nat, t: real, i: nat, j: nat)
    requires i < m && j < n && i != j
    ensures Link(Gpu(i), Gpu(j), t) in GpuLinks(n, m, t)
  {
    hide LinksFrom;
    if i < m - 1 {
      HasGpuLinks(n, m - 1, t, i, j);
    } else {
      HasLinksFrom(i, n, t, j);
    }
  }

  /** The full problem over a fully connected network of GPUs that hold and run these layer counts equally well. */
  ghost predicate SameCluster(q: Pipeline, p: Problem, counts: seq<nat>, terminal: real, between: real) {
    && p.numLayers == q.numLayers == Total(counts)
    && |p.gpus| == |q.table| == |counts|
    && p.links == FullyConnected(|p.gpus|, terminal, between)
    && forall i :: 0 <= i < |p.gpus| ==>
         1 <= counts[i] <= p.gpus[i].maxLayers && GpuThroughput(p.gpus[i])(counts[i]) == q.Throughput(i)(counts[i])
  }

  function Starts(counts: seq<nat>): (r: seq<int>)
    ensures |r| == |counts| && forall i :: 0 <= i < |r| ==> r[i] == Total(counts[..i])
  {
    seq(|counts|, i requires 0 <= i < |counts| => Total(counts[..i]))
  }

  function InOrder(counts: seq<nat>): Placement {
    Placement(Starts(counts), counts)
  }

  /** Whether an edge is on the pipeline source, 0, 1, ..., n-1, sink. */
  predicate OnChain(n: nat, e: Edge) {
    || (e.from == Source && e.to == Gpu(0))
    || (n > 0 && e.from == Gpu(n - 1) && e.to == Sink)
    || (e.from.Gpu? && e.to.Gpu? && e.to.id == e.from.id + 1 && e.to.id < n)
  }

  function ChainFlow(n: nat, z: real): FlowMap {
    (e: Edge) => if OnChain(n, e) then z else 0.0
  }

  lemma {:induction false} NoneSelected(edges: seq<Edge>, f: FlowMap, sel: Edge -> bool)
    requires forall j :: 0 <= j < |edges| && sel(edges[j]) ==> f(edges[j]) == 0.0
    ensures SumWhere(edges, f, sel) == 0.0
  {
    if edges != [] {
      NoneSelected(edges[1..], f, sel);
    }
  }

  lemma {:induction false} OneSelected(edges: seq<Edge>, f: FlowMap, sel: Edge -> bool, e: Edge)
    requires Distinct(edges) && e in edges && sel(e)
    requires forall j :: 0 <= j < |edges| && sel(edges[j]) && edges[j] != e ==> f(edges[j]) == 0.0
    ensures SumWhere(edges, f, sel) == f(e)
  {
    if edges[0] == e {
      assert e !in edges[1..];
      NoneSelected(edges[1..], f, sel);
    } else {
      OneSelected(edges[1..], f, sel, e);
    }
  }

  lemma {:induction false} IsEdgeOf(p: Problem, edges: seq<Edge>, link: Link, e: Edge)
    requires EdgeList(p, edges) && link in p.links && Yields(link, e)
    ensures e in edges
  {
    var j :| 0 <= j < |p.links| && p.links[j] == link;
  }

  lemma {:induction false} ChainEdgesExist(p: Problem, edges: seq<Edge>, terminal: real, between: real, i: nat)
    requires EdgeList(p, edges) && p.links == FullyConnected(|p.gpus|, terminal, between) && i < |p.gpus|
    ensures Edge(Source, Gpu(i)) in edges && Edge(Gpu(i), Sink) in edges
    ensures i + 1 < |p.gpus| ==> Edge(Gpu(i), Gpu(i + 1)) in edges
  {
    hide EdgeList, TerminalLinks, GpuLinks;
    var n := |p.gpus|;
    HasTerminalLinks(n, terminal, i);
    IsEdgeOf(p, edges, Link(Source, Gpu(i), terminal), Edge(Source, Gpu(i)));
    IsEdgeOf(p, edges, Link(Gpu(i), Sink, terminal), Edge(Gpu(i), Sink));
    if i + 1 < n {
      HasGpuLinks(n, n, between, i, i + 1);
      IsEdgeOf(p, edges, Link(Gpu(i), Gpu(i + 1), between), Edge(Gpu(i), Gpu(i + 1)));
    }
  }

  /** The chain's flow passes each GPU unchanged. */
  lemma {:induction false} ChainThroughGpu(p: Problem, edges: seq<Edge>, terminal: real, between: real, z: real, i: nat)
    requires EdgeList(p, edges) && p.links == FullyConnected(|p.gpus|, terminal, between) && i < |p.gpus|
    ensures Inflow(edges, ChainFlow(|p.gpus|, z), Gpu(i)) == z == Outflow(edges, ChainFlow(|p.gpus|, z), Gpu(i))
  {
    hide FullyConnected;
    var n, f := |p.gpus|, ChainFlow(|p.gpus|, z);
    ChainEdgesExist(p, edges, terminal, between, i);
    var before := if i == 0 then Edge(Source, Gpu(0)) else Edge(Gpu(i - 1), Gpu(i));
    var after := if i == n - 1 then Edge(Gpu(i), Sink) else Edge(Gpu(i), Gpu(i + 1));
    if i > 0 {
      ChainEdgesExist(p, edges, terminal, between, i - 1);
    }
    OneSelected(edges, f, Into(Gpu(i)), before);
    OneSelected(edges, f, OutOf(Gpu(i)), after);
  }

  lemma {:induction false} TerminalThroughputs(n: nat, terminal: real, z: real)
    requires terminal >= z
    ensures forall link <- TerminalLinks(n, terminal) :: LinkOk(n, link, z)
  {
    if n > 0 {
      TerminalThroughputs(n - 1, terminal, z);
    }
  }

  /** A link of a cluster of n GPUs, with a GPU at one end and throughput at least z. */
  predicate LinkOk(n: nat, link: Link, z: real) {
    && link.throughput >= z
    && (link.from.Gpu? || link.to.Gpu?)
    && (link.from.Gpu? ==> link.from.id < n)
    && (link.to.Gpu? ==> link.to.id < n)
  }

  lemma {:induction false} GpuLinkThroughputs(n: nat, m: nat, between: real, z: real)
    requires between >= z && m <= n
    ensures forall link <- GpuLinks(n, m, between) :: LinkOk(n, link, z)
  {
    hide LinkOk, LinksFrom;
    if m > 0 {
      GpuLinkThroughputs(n, m - 1, between, z);
      FromThroughputs(m - 1, n, n, between, z);
    }
  }

  lemma {:induction false} FromThroughputs(i: nat, m: nat, n: nat, between: real, z: real)
    requires between >= z && i < n && m <= n
    ensures forall link <- LinksFrom(i, m, between) :: LinkOk(n, link, z)
  {
    if m > 0 {
      FromThroughputs(i, m - 1, n, between, z);
    }
  }

  lemma {:induction false} RecordedAtLeast(links: seq<Link>, j: nat, z: real)
    requires j < |links| && forall k :: 0 <= k < |links| ==> links[k].throughput >= z
    ensures var r := Recorded(links, links[j].from, links[j].to); r.Some? && r.value >= z
  {
    if j < |links| - 1 {
      RecordedAtLeast(links[..|links| - 1], j, z);
    }
  }

  lemma {:induction false} RecordedBound(links: seq<Link>, from: Node, to: Node, z: real)
    requires forall k :: 0 <= k < |links| ==> links[k].throughput >= z
    ensures var r := Recorded(links, from, to); r.Some? ==> r.value >= z
  {
    if links != [] {
      RecordedBound(links[..|links| - 1], from, to, z);
    }
  }

  /** With links of throughput at least z, so is every edge. */
  lemma {:induction false} EdgeThroughputAtLeast(p: Problem, edges: seq<Edge>, e: Edge, z: real)
    requires EdgeList(p, edges) && e in edges
    requires forall k :: 0 <= k < |p.links| ==> p.links[k].throughput >= z
    ensures EdgeThroughput(p.links, e) >= z
  {
    var j :| 0 <= j < |p.links| && Yields(p.links[j], e);
    RecordedAtLeast(p.links, j, z);
    RecordedBound(p.links, e.from, e.to, z);
    RecordedBound(p.links, e.to, e.from, z);
  }

  lemma {:induction false} ClusterLinks(q: Pipeline, p: Problem, counts: seq<nat>, terminal: real, between: real, z: real)
    requires SameCluster(q, p, counts, terminal, between) && terminal >= z && between >= z
    ensures forall k :: 0 <= k < |p.links| ==> LinkOk(|p.gpus|, p.links[k], z)
  {
    var n := |p.gpus|;
    TerminalThroughputs(n, terminal, z);
    GpuLinkThroughputs(n, n, between, z);
    forall k | 0 <= k < |p.links| ensures LinkOk(n, p.links[k], z) {
      assert p.links[k] in TerminalLinks(n, terminal) || p.links[k] in GpuLinks(n, n, between);
    }
  }

  lemma {:induction false} TotalGrows(counts: seq<nat>, i: nat)
    requires i <= |counts|
    ensures Total(counts[..i]) <= Total(counts)
  {
    if i < |counts| {
      assert counts[..|counts| - 1][..i] == counts[..i];
      TotalGrows(counts[..|counts| - 1], i);
    } else {
      assert counts[..i] == counts;
    }
  }

  lemma {:induction false} StageEnd(counts: seq<nat>, i: nat)
    requires i < |counts|
    ensures End(InOrder(counts), i) == Total(counts[..i + 1]) <= Total(counts)
    ensures i + 1 < |counts| ==> End(InOrder(counts), i) == InOrder(counts).start[i + 1]
    ensures i + 1 == |counts| ==> End(InOrder(counts), i) == Total(counts)
  {
    assert counts[..i + 1][..i] == counts[..i];
    TotalGrows(counts, i + 1);
    assert i + 1 == |counts| ==> counts[..i + 1] == counts;
  }

  /** The ranges of a partition, laid end to end, are a valid placement. */
  lemma {:induction false} InOrderIsPlacement(q: Pipeline, p: Problem, terminal: real, between: real, counts: seq<nat>)
    requires SameCluster(q, p, counts, terminal, between)
    ensures PlacementOk(p, InOrder(counts))
  {
    forall i | 0 <= i < |p.gpus| ensures End(InOrder(counts), i) <= p.numLayers {
      StageEnd(counts, i);
    }
  }

  lemma {:induction false} ChainIsOpen(q: Pipeline, p: Problem, terminal: real, between: real, counts: seq<nat>, e: Edge)
    requires SameCluster(q, p, counts, terminal, between)
    requires ProperEdge(p, e) && OnChain(|p.gpus|, e)
    ensures Open(p, InOrder(counts), e)
  {
    if e.from == Source {
      assert counts[..0] == [];
    } else {
      StageEnd(counts, e.from.id);
      if e.to.Gpu? {
        StageEnd(counts, e.to.id);
      }
    }
  }

  /**
   A pipeline embeds in the full problem: the partition of a feasible vector, with a flow
   equal to its bottleneck along the chain of GPUs, is a solution of the full problem on a
   fully connected network whose links are at least that fast, if every GPU got a layer.
   */
  lemma {:induction false} PipelineIsSolution(q: Pipeline, x: Vec, p: Problem, edges: seq<Edge>, terminal: real, between: real)
    requires q.WellFormed() && FeasiblePipeline(q, x) && q.numLayers >= 1
    requires SameCluster(q, p, Partition(q, x, |q.maxLayers|), terminal, between) && EdgeList(p, edges) && ProperEdges(p, edges)
    requires terminal >= x(Bottleneck) && between >= x(Bottleneck)
    ensures var counts := Partition(q, x, |q.maxLayers|);
            && Solution(p, edges, InOrder(counts), ChainFlow(|p.gpus|, x(Bottleneck)))
            && Outflow(edges, ChainFlow(|p.gpus|, x(Bottleneck)), Source) == x(Bottleneck)
  {
    hide Holds, FullyConnected, EdgeList, EdgeFlowOk, GpuFlowOk, SumWhere, Partition, Total, ProperEdge, OneHot, Eval;
    var z, n := x(Bottleneck), |p.gpus|;
    PartitionSound(q, x);
    assert n >= 1 by {
      SomeStage(Partition(q, x, |q.maxLayers|));
    }
    var counts, f := Partition(q, x, |q.maxLayers|), ChainFlow(n, z);
    InOrderIsPlacement(q, p, terminal, between, counts);
    ClusterLinks(q, p, counts, terminal, between, z);
    forall j | 0 <= j < |edges| ensures EdgeFlowOk(p, InOrder(counts), f, edges[j]) {
      EdgeThroughputAtLeast(p, edges, edges[j], z);
      ChainEdgeOk(q, p, terminal, between, counts, edges[j], z);
    }
    forall i | 0 <= i < n ensures GpuFlowOk(p, edges, InOrder(counts), f, i) {
      ChainGpuOk(q, p, edges, terminal, between, counts, z, i);
    }
    SourceOfChain(p, edges, terminal, between, z);
  }

  lemma {:induction false} SomeStage(counts: seq<nat>)
    requires Total(counts) >= 1
    ensures |counts| >= 1
  {
  }

  lemma {:induction false} ChainEdgeOk(q: Pipeline, p: Problem, terminal: real, between: real, counts: seq<nat>, e: Edge, z: real)
    requires SameCluster(q, p, counts, terminal, between)
    requires ProperEdge(p, e) && 0.0 <= z <= EdgeThroughput(p.links, e)
    ensures EdgeFlowOk(p, InOrder(counts), ChainFlow(|p.gpus|, z), e)
  {
    hide FullyConnected, EdgeThroughput, Open, OnChain;
    if OnChain(|p.gpus|, e) {
      ChainIsOpen(q, p, terminal, between, counts, e);
    }
  }

  lemma {:induction false} ChainGpuOk(q: Pipeline, p: Problem, edges: seq<Edge>, terminal: real, between: real, counts: seq<nat>, z: real, i: nat)
    requires SameCluster(q, p, counts, terminal, between) && EdgeList(p, edges)
    requires i < |p.gpus| && z <= q.Throughput(i)(counts[i])
    ensures GpuFlowOk(p, edges, InOrder(counts), ChainFlow(|p.gpus|, z), i)
  {
    hide FullyConnected, EdgeList, SumWhere, ChainFlow;
    ChainThroughGpu(p, edges, terminal, between, z, i);
  }

  lemma {:induction false} SourceOfChain(p: Problem, edges: seq<Edge>, terminal: real, between: real, z: real)
    requires EdgeList(p, edges) && p.links == FullyConnected(|p.gpus|, terminal, between) && |p.gpus| >= 1
    ensures Outflow(edges, ChainFlow(|p.gpus|, z), Source) == z
  {
    hide FullyConnected;
    ChainEdgesExist(p, edges, terminal, between, 0);
    OneSelected(edges, ChainFlow(|p.gpus|, z), OutOf(Source), Edge(Source, Gpu(0)));
  }

  lemma {:induction false} ClusterWellFormed(q: Pipeline, p: Problem, counts: seq<nat>, terminal: real, between: real)
    requires SameCluster(q, p, counts, terminal, between) && q.numLayers >= 1 && terminal >= 0.0 && between >= 0.0
    ensures WellFormed(p)
  {
    hide FullyConnected;
    ClusterLinks(q, p, counts, terminal, between, 0.0);
    assert forall k :: 0 <= k < |p.links| ==> LinkOk(|p.gpus|, p.links[k], 0.0);
  }

  /** The full system attains the bottleneck of every single pipeline. */
  lemma {:induction false} FullOptimumAtLeastPipeline(q: Pipeline, x: Vec, p: Problem, edges: seq<Edge>, terminal: real, between: real)
    requires q.WellFormed() && FeasiblePipeline(q, x) && q.numLayers >= 1
    requires SameCluster(q, p, Partition(q, x, |q.maxLayers|), terminal, between) && EdgeList(p, edges) && ProperEdges(p, edges)
    requires terminal >= x(Bottleneck) && between >= x(Bottleneck)
    requires p.removeRedundant || p.numLayers >= 2
    ensures exists y: Vec :: Feasible(p, edges, y) && Objective(edges, y, |p.gpus|) == x(Bottleneck)
  {
    hide FeasiblePipeline, FullyConnected, EdgeList, Solution, Feasible, Objective, WellFormed, Partition, Outflow;
    PipelineIsSolution(q, x, p, edges, terminal, between);
    NonNegativeBottleneck(q, x);
    var counts, f := Partition(q, x, |q.maxLayers|), ChainFlow(|p.gpus|, x(Bottleneck));
    ClusterWellFormed(q, p, counts, terminal, between);
    Complete(p, edges, InOrder(counts), f);
    var y := Encode(p, InOrder(counts), f);
    assert Feasible(p, edges, y) && Objective(edges, y, |p.gpus|) == x(Bottleneck);
  }
}

/**
 Balancing MoE experts over GPUs: the longest-processing-time-first greedy with a fixed
 number of experts per GPU. The heap-driven loop is proved to follow the simple rule "give
 the next expert to the least loaded GPU that is not full", and the rule is proved to give a
 bijection whose heaviest and lightest GPU differ by at most the largest expert.
 */
module Balance {
  import opened Wrappers
  import opened Counting

  // ---------- the rule ----------

  function Load(counts: seq<nat>, group: seq<nat>): nat {
    if group == [] then 0
    else Load(counts, group[..|group| - 1]) + CountOf(counts, group[|group| - 1])
  }

  function CountOf(counts: seq<nat>, e: nat): nat {
    if e < |counts| then counts[e] else 0
  }

  /** The least loaded of the first n groups that is not full, the first one on ties. */
  function LeastLoaded(counts: seq<nat>, groups: seq<seq<nat>>, cap: nat, n: nat): Option<nat>
    requires n <= |groups|
  {
    if n == 0 then None
    else
      var best := LeastLoaded(counts, groups, cap, n - 1);
      if |groups[n - 1]| >= cap then best
      else if best.None? || best.value >= |groups| || Load(counts, groups[n - 1]) < Load(counts, groups[best.value]) then Some(n - 1)
      else best
  }

  function Give(groups: seq<seq<nat>>, g: nat, e: nat): (r: seq<seq<nat>>)
    requires g < |groups|
    ensures |r| == |groups|
  {
    groups[g := groups[g] + [e]]
  }

  /** The groups after the first n experts of `order` are placed. */
  function Placed(counts: seq<nat>, order: seq<nat>, numGpus: nat, cap: nat, n: nat): (groups: seq<seq<nat>>)
    requires n <= |order|
    ensures |groups| == numGpus
  {
    if n == 0 then seq(numGpus, _ => [])
    else
      var groups := Placed(counts, order, numGpus, cap, n - 1);
      match LeastLoaded(counts, groups, cap, numGpus)
      case Some(g) => if g < numGpus then Give(groups, g, order[n - 1]) else groups
      case None => groups
  }

  /** `order` lists all experts once, the most used first; ties may be in any order. */
  ghost predicate Descending(counts: seq<nat>, order: seq<nat>) {
    && |order| == |counts|
    && Distinct(order)
    && (forall i :: 0 <= i < |order| ==> order[i] < |counts|)
    && (forall i, j :: 0 <= i < j < |order| ==> CountOf(counts, order[i]) >= CountOf(counts, order[j]))
  }

  lemma {:induction false} LeastLoadedIsLeast(counts: seq<nat>, groups: seq<seq<nat>>, cap: nat, n: nat)
    requires n <= |groups|
    ensures match LeastLoaded(counts, groups, cap, n)
            case None => forall g :: 0 <= g < n ==> |groups[g]| >= cap
            case Some(b) =>
              && b < n && |groups[b]| < cap
              && (forall g :: 0 <= g < n && |groups[g]| < cap ==> Load(counts, groups[b]) <= Load(counts, groups[g]))
              && (forall g :: 0 <= g < b && |groups[g]| < cap ==> Load(counts, groups[b]) < Load(counts, groups[g]))
  {
    if n > 0 {
      LeastLoadedIsLeast(counts, groups, cap, n - 1);
    }
  }

  // ---------- sizes: there is always room ----------

  function Sizes(groups: seq<seq<nat>>): nat {
    if groups == [] then 0 else |groups[0]| + Sizes(groups[1..])
  }

  lemma {:induction false} SizesGive(groups: seq<seq<nat>>, g: nat, e: nat)
    requires g < |groups|
    ensures Sizes(Give(groups, g, e)) == Sizes(groups) + 1
  {
    var groups' := Give(groups, g, e);
    if g == 0 {
      assert groups'[1..] == groups[1..];
    } else {
      assert groups'[1..] == Give(groups[1..], g - 1, e);
      SizesGive(groups[1..], g - 1, e);
    }
  }

  lemma {:induction false} SizesBound(groups: seq<seq<nat>>, cap: nat)
    requires forall g :: 0 <= g < |groups| ==> |groups[g]| <= cap
    ensures Sizes(groups) <= |groups| * cap
    ensures Sizes(groups) == |groups| * cap ==> forall g :: 0 <= g < |groups| ==> |groups[g]| == cap
    ensures (forall g :: 0 <= g < |groups| ==> |groups[g]| == cap) ==> Sizes(groups) == |groups| * cap
  {
    if groups != [] {
      SizesBound(groups[1..], cap);
      assert |groups| * cap == |groups[1..]| * cap + cap;
    }
  }

  lemma {:induction false} NoSizes(groups: seq<seq<nat>>)
    requires forall g :: 0 <= g < |groups| ==> groups[g] == []
    ensures Sizes(groups) == 0
  {
    if groups != [] {
      NoSizes(groups[1..]);
    }
  }

  // ---------- what every placement keeps ----------

  predicate IsSlot(groups: seq<seq<nat>>, g: int, s: int) {
    0 <= g < |groups| && 0 <= s < |groups[g]|
  }

  /** No GPU over its capacity, n experts placed, each from the front of the order and each in one slot. */
  ghost predicate Tidy(order: seq<nat>, groups: seq<seq<nat>>, cap: nat, n: nat)
    requires n <= |order|
  {
    && (forall g :: 0 <= g < |groups| ==> |groups[g]| <= cap)
    && Sizes(groups) == n
    && (forall g, s :: IsSlot(groups, g, s) ==> groups[g][s] in order[..n])
    && (forall g, s, h, t :: IsSlot(groups, g, s) && IsSlot(groups, h, t) && groups[g][s] == groups[h][t] ==> g == h && s == t)
  }

  /** Spread in experts, weighted by the last count placed, is paid for by the spread in load. */
  ghost predicate Even(counts: seq<nat>, groups: seq<seq<nat>>, v: nat, most: nat) {
    forall a, b :: 0 <= a < |groups| && 0 <= b < |groups| ==> EvenPair(counts, groups[a], groups[b], v, most)
  }

  predicate EvenPair(counts: seq<nat>, a: seq<nat>, b: seq<nat>, v: nat, most: nat) {
    Load(counts, a) - Load(counts, b) + Excess(|b| - |a|, v) <= most
  }

  function Excess(d: int, v: nat): nat {
    if d > 0 then d * v else 0
  }

  lemma {:induction false} ExcessLaws(d: int, w: nat, v: nat)
    requires w <= v
    ensures Excess(d, w) <= Excess(d, v)
    ensures d >= 1 ==> Excess(d - 1, w) + w == Excess(d, w)
    ensures d >= 0 ==> Excess(d + 1, w) == Excess(d, w) + w
    ensures d < 0 ==> Excess(d + 1, w) == 0
    ensures d < 1 ==> Excess(d - 1, w) == 0
  {
    if d > 0 {
      assert d * w <= d * v;
    }
  }

  lemma {:induction false} NothingPlaced(counts: seq<nat>, groups: seq<seq<nat>>, order: seq<nat>)
    requires forall g :: 0 <= g < |groups| ==> groups[g] == []
    ensures Even(counts, groups, LastCount(counts, order, 0), Most(counts))
  {
  }

  lemma {:induction false} NothingTidy(order: seq<nat>, groups: seq<seq<nat>>, cap: nat)
    requires forall g :: 0 <= g < |groups| ==> groups[g] == []
    ensures Tidy(order, groups, cap, 0)
  {
    NoSizes(groups);
  }

  lemma {:induction false} GiveTidy(order: seq<nat>, groups: seq<seq<nat>>, cap: nat, n: nat, g: nat)
    requires n < |order| && Distinct(order) && Tidy(order, groups, cap, n) && g < |groups| && |groups[g]| < cap
    ensures Tidy(order, Give(groups, g, order[n]), cap, n + 1)
  {
    var groups' := Give(groups, g, order[n]);
    SizesGive(groups, g, order[n]);
    assert order[..n + 1] == order[..n] + [order[n]] && order[n] !in order[..n];
    forall h, s | IsSlot(groups', h, s)
      ensures if IsSlot(groups, h, s) then groups'[h][s] == groups[h][s] && groups'[h][s] in order[..n]
              else h == g && s == |groups[g]| && groups'[h][s] == order[n]
    {
    }
  }

  lemma {:induction false} LoadGive(counts: seq<nat>, group: seq<nat>, e: nat)
    ensures Load(counts, group + [e]) == Load(counts, group) + CountOf(counts, e)
  {
    assert (group + [e])[..|group|] == group;
  }

  /** Placing a smaller count on the least loaded GPU with room keeps the groups even. */
  lemma {:induction false} GiveEven(counts: seq<nat>, groups: seq<seq<nat>>, cap: nat, v: nat, most: nat, g: nat, e: nat)
    requires Even(counts, groups, v, most) && g < |groups| && |groups[g]| < cap && CountOf(counts, e) <= v <= most
    requires forall h :: 0 <= h < |groups| && |groups[h]| < cap ==> Load(counts, groups[g]) <= Load(counts, groups[h])
    ensures Even(counts, Give(groups, g, e), CountOf(counts, e), most)
  {
    hide Load, Excess;
    var groups', w := Give(groups, g, e), CountOf(counts, e);
    LoadGive(counts, groups[g], e);
    forall a, b | 0 <= a < |groups| && 0 <= b < |groups| ensures EvenPair(counts, groups'[a], groups'[b], w, most) {
      assert EvenPair(counts, groups[a], groups[b], v, most);
      ExcessLaws(|groups[b]| - |groups[a]|, w, v);
    }
  }

  /** The largest count. */
  function Most(counts: seq<nat>): nat {
    if counts == [] then 0
    else
      var rest := Most(counts[..|counts| - 1]);
      if counts[|counts| - 1] > rest then counts[|counts| - 1] else rest
  }

  lemma {:induction false} MostIsMost(counts: seq<nat>, e: nat)
    ensures CountOf(counts, e) <= Most(counts)
    ensures counts != [] ==> Most(counts) in counts
  {
    if |counts| > 1 {
      var rest := counts[..|counts| - 1];
      MostIsMost(rest, e);
      assert forall i :: 0 <= i < |rest| ==> rest[i] == counts[i];
    }
  }

  function LastCount(counts: seq<nat>, order: seq<nat>, n: nat): nat
    requires n <= |order|
  {
    if n == 0 then Most(counts) else CountOf(counts, order[n - 1])
  }

  /** While experts remain there is a GPU with room, and every placement stays tidy and even. */
  lemma {:induction false} PlacedIsGood(counts: seq<nat>, order: seq<nat>, numGpus: nat, cap: nat, n: nat)
    requires Descending(counts, order) && |counts| == numGpus * cap && n <= |order|
    ensures var groups := Placed(counts, order, numGpus, cap, n);
            && Tidy(order, groups, cap, n)
            && Even(counts, groups, LastCount(counts, order, n), Most(counts))
            && (n < |order| ==> LeastLoaded(counts, groups, cap, numGpus).Some?)
  {
    hide Even, Tidy, LeastLoaded, Load, Most;
    var groups := Placed(counts, order, numGpus, cap, n);
    if n == 0 {
      NothingTidy(order, groups, cap);
      NothingPlaced(counts, groups, order);
    } else {
      var before := Placed(counts, order, numGpus, cap, n - 1);
      PlacedIsGood(counts, order, numGpus, cap, n - 1);
      LeastLoadedIsLeast(counts, before, cap, numGpus);
      var g := LeastLoaded(counts, before, cap, numGpus).value;
      GiveTidy(order, before, cap, n - 1, g);
      LastCountDescends(counts, order, n);
      GiveEven(counts, before, cap, LastCount(counts, order, n - 1), Most(counts), g, order[n - 1]);
    }
    RoomLeft(counts, order, groups, cap, n);
  }

  lemma {:induction false} LastCountDescends(counts: seq<nat>, order: seq<nat>, n: nat)
    requires Descending(counts, order) && 1 <= n <= |order|
    ensures LastCount(counts, order, n) <= LastCount(counts, order, n - 1) <= Most(counts)
  {
    MostIsMost(counts, order[n - 1]);
    if n >= 2 {
      MostIsMost(counts, order[n - 2]);
    }
  }

  lemma {:induction false} RoomLeft(counts: seq<nat>, order: seq<nat>, groups: seq<seq<nat>>, cap: nat, n: nat)
    requires n <= |order| && Tidy(order, groups, cap, n) && |order| == |groups| * cap
    ensures n < |order| ==> LeastLoaded(counts, groups, cap, |groups|).Some?
  {
    LeastLoadedIsLeast(counts, groups, cap, |groups|);
    SizesBound(groups, cap);
  }

  /** The finished plan: every expert placed once, every GPU full, loads within one largest expert of each other. */
  lemma {:induction false} FinishedPlan(counts: seq<nat>, order: seq<nat>, numGpus: nat, cap: nat)
    requires Descending(counts, order) && |counts| == numGpus * cap
    ensures var groups := Placed(counts, order, numGpus, cap, |order|);
            && Tidy(order, groups, cap, |order|)
            && (forall g :: 0 <= g < numGpus ==> |groups[g]| == cap)
            && (forall a, b :: 0 <= a < numGpus && 0 <= b < numGpus ==>
                  Load(counts, groups[a]) - Load(counts, groups[b]) <= Most(counts))
  {
    var groups := Placed(counts, order, numGpus, cap, |order|);
    PlacedIsGood(counts, order, numGpus, cap, |order|);
    SizesBound(groups, cap);
    forall a, b | 0 <= a < numGpus && 0 <= b < numGpus
      ensures Load(counts, groups[a]) - Load(counts, groups[b]) <= Most(counts)
    {
      assert EvenPair(counts, groups[a], groups[b], LastCount(counts, order, |order|), Most(counts));
    }
  }

  // ---------- the heap-driven loop ----------

  datatype Entry = Entry(load: nat, gpu: nat)

  predicate AtMost(a: Entry, b: Entry) {
    a.load < b.load || (a.load == b.load && a.gpu <= b.gpu)
  }

  /** A heap with one entry per GPU. */
  ghost predicate IsHeap(counts: seq<nat>, groups: seq<seq<nat>>, heap: set<Entry>) {
    forall x: Entry :: x in heap <==> IsEntry(counts, groups, x)
  }

  predicate IsEntry(counts: seq<nat>, groups: seq<seq<nat>>, x: Entry) {
    x.gpu < |groups| && x.load == Load(counts, groups[x.gpu])
  }

  /** Take the smallest entry off a heap. */
  method PopMin(heap: set<Entry>) returns (top: Entry, rest: set<Entry>)
    requires heap != {}
    ensures top in heap && rest == heap - {top} && forall x :: x in heap ==> AtMost(top, x)
  {
    top :| top in heap;
    var todo := heap - {top};
    while todo != {}
      invariant todo <= heap && top in heap && forall x :: x in heap && x !in todo ==> AtMost(top, x)
      decreases |todo|
    {
      var e :| e in todo;
      todo := todo - {e};
      if AtMost(e, top) {
        top := e;
      }
    }
    rest := heap - {top};
  }

  /** Pop until a GPU with room comes up; the full ones go back. There is always one with room. */
  method PopWithRoom(counts: seq<nat>, groups: seq<seq<nat>>, cap: nat, full: set<Entry>) returns (top: Entry, heap: set<Entry>)
    requires IsHeap(counts, groups, full) && LeastLoaded(counts, groups, cap, |groups|).Some?
    ensures IsEntry(counts, groups, top) && LeastLoaded(counts, groups, cap, |groups|) == Some(top.gpu)
    ensures heap == full - {top}
  {
    LeastLoadedIsLeast(counts, groups, cap, |groups|);
    ghost var best := LeastLoaded(counts, groups, cap, |groups|).value;
    ghost var least := Entry(Load(counts, groups[best]), best);
    hide Load;
    heap := full;
    var deferred: set<Entry> := {};
    assert IsEntry(counts, groups, least);
    while true
      invariant deferred == full - heap && heap <= full && least in heap
      invariant forall x :: x in full && x !in heap ==> |groups[x.gpu]| >= cap
      decreases heap
    {
      ghost var before := heap;
      top, heap := PopMin(heap);
      assert top in full && IsEntry(counts, groups, top);
      if |groups[top.gpu]| < cap {
        assert AtMost(top, least);
        break;
      }
      deferred := deferred + {top};
      assert heap < before;
    }
    assert top.gpu == best;
    heap := heap + deferred;
  }

  method AssignExperts(counts: seq<nat>, order: seq<nat>, numGpus: nat, cap: nat) returns (groups: seq<seq<nat>>)
    requires Descending(counts, order) && |counts| == numGpus * cap
    ensures groups == Placed(counts, order, numGpus, cap, |order|)
  {
    hide Load, Tidy, Even, LeastLoaded, Most, IsHeap, Descending;
    groups := seq(numGpus, _ => []);
    assert groups == Placed(counts, order, numGpus, cap, 0);
    var heap := set g: nat | g < numGpus :: Entry(0, g);
    InitialHeap(counts, groups, heap);
    for n := 0 to |order|
      invariant |groups| == numGpus && groups == Placed(counts, order, numGpus, cap, n)
      invariant IsHeap(counts, groups, heap)
    {
      PlacedIsGood(counts, order, numGpus, cap, n);
      ghost var before, heapBefore := groups, heap;
      var top;
      top, heap := PopWithRoom(counts, groups, cap, heap);
      groups := groups[top.gpu := groups[top.gpu] + [order[n]]];
      heap := heap + {Entry(top.load + CountOf(counts, order[n]), top.gpu)};
      Pushed(counts, before, heapBefore, top, order[n]);
    }
  }

  lemma {:induction false} InitialHeap(counts: seq<nat>, groups: seq<seq<nat>>, heap: set<Entry>)
    requires forall g :: 0 <= g < |groups| ==> groups[g] == []
    requires heap == set g: nat | g < |groups| :: Entry(0, g)
    ensures IsHeap(counts, groups, heap)
  {
  }

  lemma {:induction false} Pushed(counts: seq<nat>, groups: seq<seq<nat>>, heap: set<Entry>, top: Entry, e: nat)
    requires IsHeap(counts, groups, heap) && IsEntry(counts, groups, top)
    ensures IsHeap(counts, Give(groups, top.gpu, e), heap - {top} + {Entry(top.load + CountOf(counts, e), top.gpu)})
  {
    hide Load;
    LoadGive(counts, groups[top.gpu], e);
    var groups', new_ := Give(groups, top.gpu, e), Entry(top.load + CountOf(counts, e), top.gpu);
    forall x: Entry ensures x in heap - {top} + {new_} <==> IsEntry(counts, groups', x) {
      if x.gpu == top.gpu {
        assert IsEntry(counts, groups', x) <==> x == new_;
        assert IsEntry(counts, groups, x) <==> x == top;
      } else {
        assert IsEntry(counts, groups', x) <==> IsEntry(counts, groups, x);
      }
    }
  }

  // ---------- the permutation ----------

  /** Expert groups[g][s] is renamed to slot s of GPU g. */
  ghost predicate Renames(mapping: seq<nat>, groups: seq<seq<nat>>, cap: nat) {
    forall g, s :: IsSlot(groups, g, s) ==> groups[g][s] < |mapping| && mapping[groups[g][s]] == g * cap + s
  }

  method BuildMapping(groups: seq<seq<nat>>, cap: nat, order: seq<nat>) returns (mapping: seq<nat>)
    requires Tidy(order, groups, cap, |order|) && forall g :: 0 <= g < |groups| ==> |groups[g]| == cap
    requires forall i :: 0 <= i < |order| ==> order[i] < |order|
    ensures |mapping| == |order| && Renames(mapping, groups, cap)
  {
    mapping := seq(|order|, _ => 0);
    assert order[..|order|] == order;
    for gpu := 0 to |groups|
      invariant |mapping| == |order|
      invariant forall g, s :: IsSlot(groups, g, s) && g < gpu ==> mapping[groups[g][s]] == g * cap + s
    {
      for slot := 0 to |groups[gpu]|
        invariant |mapping| == |order|
        invariant forall g, s :: IsSlot(groups, g, s) && (g < gpu || (g == gpu && s < slot)) ==> mapping[groups[g][s]] == g * cap + s
      {
        assert IsSlot(groups, gpu, slot) && groups[gpu][slot] in order[..|order|];
        mapping := mapping[groups[gpu][slot] := gpu * cap + slot];
      }
    }
  }

  /** The renaming is a bijection on the expert ids. */
  ghost predicate IsBijection(mapping: seq<nat>) {
    Distinct(mapping) && forall e :: 0 <= e < |mapping| ==> mapping[e] < |mapping|
  }

  function SlotContents(groups: seq<seq<nat>>, cap: nat, k: nat): nat {
    if cap > 0 && IsSlot(groups, k / cap, k % cap) then groups[k / cap][k % cap] else 0
  }

  lemma {:induction false} SlotNumber(order: seq<nat>, groups: seq<seq<nat>>, cap: nat, k: nat)
    requires Tidy(order, groups, cap, |order|) && k < |order| == |groups| * cap
    requires forall i :: 0 <= i < |order| ==> order[i] < |order|
    requires forall h :: 0 <= h < |groups| ==> |groups[h]| == cap
    ensures cap > 0 && IsSlot(groups, k / cap, k % cap) && (k / cap) * cap + k % cap == k
    ensures SlotContents(groups, cap, k) < |order|
  {
    QuotientBound(|groups|, cap, k);
    assert IsSlot(groups, k / cap, k % cap);
    assert order[..|order|] == order;
  }

  /** Every expert has a slot: as many experts as slots, and no two slots share one. */
  lemma {:induction false} EveryExpertPlaced(order: seq<nat>, groups: seq<seq<nat>>, cap: nat, e: nat) returns (g: nat, s: nat)
    requires Tidy(order, groups, cap, |order|) && e < |order| == |groups| * cap
    requires forall i :: 0 <= i < |order| ==> order[i] < |order|
    requires forall h :: 0 <= h < |groups| ==> |groups[h]| == cap
    ensures IsSlot(groups, g, s) && groups[g][s] == e
  {
    hide Sizes;
    var n := |order|;
    var flat := seq(n, k requires 0 <= k < n => SlotContents(groups, cap, k));
    forall i, j | 0 <= i < j < n ensures flat[i] != flat[j] {
      SlotNumber(order, groups, cap, i);
      SlotNumber(order, groups, cap, j);
    }
    forall i | 0 <= i < n ensures flat[i] < n {
      SlotNumber(order, groups, cap, i);
    }
    hide Tidy;
    Pigeonhole(flat, n);
    assert e in flat;
    var k :| 0 <= k < n && flat[k] == e;
    SlotNumber(order, groups, cap, k);
    g, s := k / cap, k % cap;
  }

  lemma {:induction false} MappingIsBijection(order: seq<nat>, groups: seq<seq<nat>>, cap: nat, mapping: seq<nat>)
    requires Tidy(order, groups, cap, |order|) && Distinct(order) && |mapping| == |order| == |groups| * cap
    requires forall i :: 0 <= i < |order| ==> order[i] < |order|
    requires forall g :: 0 <= g < |groups| ==> |groups[g]| == cap
    requires Renames(mapping, groups, cap)
    ensures IsBijection(mapping)
  {
    forall e | 0 <= e < |mapping| ensures mapping[e] < |mapping| {
      var g, s := EveryExpertPlaced(order, groups, cap, e);
      CodeBound(|groups|, cap, g, s);
    }
    forall e, f | 0 <= e < f < |mapping| ensures mapping[e] != mapping[f] {
      var g, s := EveryExpertPlaced(order, groups, cap, e);
      var h, t := EveryExpertPlaced(order, groups, cap, f);
      if mapping[e] == mapping[f] {
        CodeInjective(cap, g, s, h, t);
      }
    }
  }

  // ---------- loads after renaming ----------

  /** Counts moved to their experts' new ids. */
  method RemapCounts(counts: seq<nat>, mapping: seq<nat>) returns (remapped: seq<nat>)
    requires |mapping| == |counts| && IsBijection(mapping)
    ensures |remapped| == |counts| && forall e :: 0 <= e < |counts| ==> remapped[mapping[e]] == counts[e]
  {
    remapped := seq(|counts|, _ => 0);
    for old_ := 0 to |counts|
      invariant |remapped| == |counts| && forall e :: 0 <= e < old_ ==> remapped[mapping[e]] == counts[e]
    {
      remapped := remapped[mapping[old_] := counts[old_]];
    }
  }

  /** Load of GPU g: the counts of its `cap` consecutive experts, the first n of them. */
  function GpuLoad(counts: seq<nat>, cap: nat, g: nat, n: nat): nat {
    if n == 0 then 0 else GpuLoad(counts, cap, g, n - 1) + CountOf(counts, g * cap + n - 1)
  }

  lemma {:induction false} RemappedLoad(counts: seq<nat>, remapped: seq<nat>, mapping: seq<nat>, groups: seq<seq<nat>>, cap: nat, g: nat, n: nat)
    requires |mapping| == |counts| == |remapped| && Renames(mapping, groups, cap) && g < |groups| && n <= |groups[g]| == cap
    requires IsBijection(mapping)
    requires forall e :: 0 <= e < |counts| ==> remapped[mapping[e]] == counts[e]
    ensures GpuLoad(remapped, cap, g, n) == Load(counts, groups[g][..n])
  {
    if n > 0 {
      RemappedLoad(counts, remapped, mapping, groups, cap, g, n - 1);
      assert groups[g][..n][..n - 1] == groups[g][..n - 1];
      assert IsSlot(groups, g, n - 1);
      var e := groups[g][n - 1];
      assert mapping[e] == g * cap + (n - 1);
    }
  }

  /**
   The whole balancing step for one layer: the result is a bijection of expert ids, and after
   renaming the heaviest and the lightest GPU differ by at most the count of one expert.
   */
  method BalanceLayer(counts: seq<nat>, order: seq<nat>, numGpus: nat, cap: nat) returns (mapping: seq<nat>, remapped: seq<nat>)
    requires Descending(counts, order) && |counts| == numGpus * cap
    ensures |mapping| == |counts| && IsBijection(mapping)
    ensures |remapped| == |counts| && forall e :: 0 <= e < |counts| ==> remapped[mapping[e]] == counts[e]
    ensures forall a, b :: 0 <= a < numGpus && 0 <= b < numGpus ==>
              GpuLoad(remapped, cap, a, cap) - GpuLoad(remapped, cap, b, cap) <= Most(counts)
  {
    var groups := AssignExperts(counts, order, numGpus, cap);
    FinishedPlan(counts, order, numGpus, cap);
    mapping := BuildMapping(groups, cap, order);
    MappingIsBijection(order, groups, cap, mapping);
    remapped := RemapCounts(counts, mapping);
    forall g | 0 <= g < numGpus ensures GpuLoad(remapped, cap, g, cap) == Load(counts, groups[g]) {
      RemappedLoad(counts, remapped, mapping, groups, cap, g, cap);
      assert groups[g][..cap] == groups[g];
    }
  }
}

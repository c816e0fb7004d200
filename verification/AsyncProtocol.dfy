/**
 Conservation of token copies in the barrier-free protocol.

 The protocol sees the GPUs only as a multiset of items: a token waiting for, in, or just
 out of attention is one `Attention` item, and each replica on its way to, queued at, or
 returning from an expert is one `Expert` item. Three things happen to items: a request
 arrives, a token fans out, a replica joins. `Inv` is what all three keep.
 */
module AsyncProtocol {
  import opened Wrappers
  import opened Counting
  import opened AsyncCore

  datatype Stage = Attention | Expert

  datatype Item = Item(ref: nat, layer: nat, stage: Stage)

  function AttentionItems(works: seq<Work>): multiset<Item> {
    if works == [] then multiset{}
    else AttentionItems(works[1..]) + multiset{Item(works[0].ref, works[0].layer, Attention)}
  }

  lemma {:induction false} AttentionItemsConcat(a: seq<Work>, b: seq<Work>)
    ensures AttentionItems(a + b) == AttentionItems(a) + AttentionItems(b)
  {
    if a == [] {
      assert a + b == b;
    } else {
      assert (a + b)[1..] == a[1..] + b;
      AttentionItemsConcat(a[1..], b);
    }
  }

  // ---------- the invariant ----------

  /** Tokens issued so far for a request that has started. */
  function Issued(c: Config, m: Manager, rid: nat): nat {
    if rid in m.active then m.active[rid] else c.tokensPerRequest
  }

  ghost predicate Live(m: Manager, ref: nat) {
    ref < |m.tokens| && ref !in m.completed
  }

  /**
   Request bookkeeping. Requests start in arrival order, so the started ones are
   0 .. nextHome-1 and the pending ones follow. Between two statements of the simulator
   one request may be registered without a live token (`hole`) or be taken from the queue
   without being registered (`gap`).
   */
  ghost predicate Requests(c: Config, m: Manager, arrived: nat, hole: set<nat>, gap: nat)
    requires c.WellFormed()
  {
    && m.nextHome + gap + |m.pending| == arrived <= c.totalRequests
    && (forall i :: 0 <= i < |m.pending| ==> m.pending[i] == m.nextHome + gap + i)
    && m.active.Keys == m.home.Keys
    && hole <= m.active.Keys
    && (forall rid <- m.active ::
          && rid < m.nextHome
          && (m.active[rid] >= 1 || rid in hole)
          && m.active[rid] <= c.tokensPerRequest
          && m.home[rid] == rid % c.numWorkers)
    && (c.maxActive.Some? ==> |m.active| <= c.maxActive.value)
    && (c.maxActive == Some(0) ==> m.nextHome == 0)
  }

  /** A request waits only while the cap is reached. */
  ghost predicate Saturated(c: Config, m: Manager) {
    m.pending != [] ==> !m.HasRoom(c)
  }

  ghost predicate HasToken(tokens: seq<Token>, rid: nat, index: nat) {
    exists t :: 0 <= t < |tokens| && tokens[t].rid == rid && tokens[t].index == index
  }

  ghost predicate TokenOk(c: Config, m: Manager, t: nat)
    requires c.WellFormed() && t < |m.tokens|
  {
    var token := m.tokens[t];
    && token.tid == t
    && token.rid < m.nextHome
    && token.index < Issued(c, m, token.rid)
    && token.home == token.rid % c.numWorkers
  }

  /** Unique ids; each request's tokens in index order; requests' first tokens in arrival order. */
  ghost predicate InIssueOrder(tokens: seq<Token>) {
    && (forall i, j :: 0 <= i < j < |tokens| && tokens[i].rid == tokens[j].rid ==> tokens[i].index < tokens[j].index)
    && (forall i, j :: 0 <= i < j < |tokens| && tokens[i].index == 0 == tokens[j].index ==> tokens[i].rid < tokens[j].rid)
  }

  ghost predicate TokenLog(c: Config, m: Manager)
    requires c.WellFormed()
  {
    && m.nextTid == |m.tokens|
    && (forall t :: 0 <= t < |m.tokens| ==> TokenOk(c, m, t))
    && InIssueOrder(m.tokens)
    && (forall rid, index :: 0 <= rid < m.nextHome && 0 <= index < Issued(c, m, rid) ==> HasToken(m.tokens, rid, index))
  }

  /** The live tokens are exactly the newest token of each active request. */
  ghost predicate OneLiveToken(m: Manager, hole: set<nat>) {
    && Distinct(m.completed)
    && (forall i :: 0 <= i < |m.completed| ==> m.completed[i] < |m.tokens|)
    && (forall t :: 0 <= t < |m.tokens| ==>
          (t !in m.completed <==>
           m.tokens[t].rid in m.active && m.tokens[t].rid !in hole && m.tokens[t].index + 1 == m.active[m.tokens[t].rid]))
  }

  function Joined(s: Core, slot: nat, ref: nat): nat {
    if slot < |s.joins| && ref in s.joins[slot] then s.joins[slot][ref] else 0
  }

  /** The token is a single copy, before the experts of `layer`. */
  ghost predicate SingleCopy(s: Core, items: multiset<Item>, ref: nat, layer: nat) {
    var only := Item(ref, layer, Attention);
    && items[only] == 1
    && (forall x <- items :: x.ref == ref ==> x == only)
    && (forall slot :: 0 <= slot < |s.joins| ==> ref !in s.joins[slot])
  }

  /** The token is fanned out at `layer`: outstanding replicas plus joined replicas make up its fanout. */
  ghost predicate FannedOut(s: Core, items: multiset<Item>, ref: nat, layer: nat, fanout: nat) {
    var only := Item(ref, layer, Expert);
    && items[only] >= 1
    && items[only] + Joined(s, layer + 1, ref) == fanout
    && (forall x <- items :: x.ref == ref ==> x == only)
    && (forall slot :: 0 <= slot < |s.joins| && ref in s.joins[slot] ==> slot == layer + 1)
  }

  ghost predicate Located(c: Config, s: Core, items: multiset<Item>, ref: nat)
    requires ref < |s.mgr.tokens|
  {
    var fanout := s.mgr.tokens[ref].fanout;
    var k := |fanout|;
    && (forall l :: l in fanout <==> 0 <= l < k)
    && (forall l <- fanout :: fanout[l] >= 1)
    && (|| (k < c.numLayers && SingleCopy(s, items, ref, k))
        || (1 <= k <= c.numLayers && FannedOut(s, items, ref, k - 1, fanout[k - 1])))
  }

  ghost predicate AllLocated(c: Config, s: Core, items: multiset<Item>) {
    && |s.joins| == c.numLayers + 1
    && (forall t: nat :: Live(s.mgr, t) ==> Located(c, s, items, t))
    && (forall x <- items :: Live(s.mgr, x.ref))
    && (forall slot, key :: 0 <= slot < |s.joins| && key in s.joins[slot] ==> Live(s.mgr, key))
  }

  ghost predicate Consistent(c: Config, s: Core, items: multiset<Item>, hole: set<nat>, gap: nat)
    requires c.WellFormed()
  {
    && Requests(c, s.mgr, s.arrived, hole, gap)
    && TokenLog(c, s.mgr)
    && OneLiveToken(s.mgr, hole)
    && AllLocated(c, s, items)
  }

  ghost predicate Inv(c: Config, s: Core, items: multiset<Item>)
    requires c.WellFormed()
  {
    Consistent(c, s, items, {}, 0) && Saturated(c, s.mgr)
  }

  lemma {:induction false} InitialInv(c: Config)
    requires c.WellFormed()
    ensures Inv(c, InitialCore(c), multiset{})
  {
  }

  // ---------- what a step leaves alone ----------

  ghost predicate SameButFanout(a: Token, b: Token) {
    a.tid == b.tid && a.rid == b.rid && a.index == b.index && a.home == b.home
  }

  /** Neither the pending queue nor a fanout record matters to the token log. */
  lemma {:induction false} LogFrame(c: Config, m: Manager, m': Manager, hole: set<nat>)
    requires c.WellFormed() && TokenLog(c, m) && OneLiveToken(m, hole)
    requires m'.nextTid == m.nextTid && m'.active == m.active && m'.nextHome == m.nextHome && m'.completed == m.completed
    requires |m'.tokens| == |m.tokens|
    requires forall t :: 0 <= t < |m.tokens| ==> SameButFanout(m.tokens[t], m'.tokens[t])
    ensures TokenLog(c, m') && OneLiveToken(m', hole)
  {
    forall t | 0 <= t < |m'.tokens| ensures TokenOk(c, m', t) {
      assert TokenOk(c, m, t) && SameButFanout(m.tokens[t], m'.tokens[t]);
    }
    forall r, index | 0 <= r < m'.nextHome && 0 <= index < Issued(c, m', r) ensures HasToken(m'.tokens, r, index) {
      assert Issued(c, m', r) == Issued(c, m, r);
      assert HasToken(m.tokens, r, index);
      var t :| 0 <= t < |m.tokens| && m.tokens[t].rid == r && m.tokens[t].index == index;
      assert SameButFanout(m.tokens[t], m'.tokens[t]);
    }
  }

  lemma {:induction false} LocationFrame(c: Config, s: Core, s': Core, items: multiset<Item>)
    requires AllLocated(c, s, items)
    requires s'.joins == s.joins && s'.mgr.tokens == s.mgr.tokens && s'.mgr.completed == s.mgr.completed
    ensures AllLocated(c, s', items)
  {
    forall t: nat | Live(s'.mgr, t) ensures Located(c, s', items, t) {
      assert Located(c, s, items, t);
    }
    forall slot, key | 0 <= slot < |s.joins| && key in s.joins[slot] ensures Live(s'.mgr, key) {
      assert Live(s.mgr, key);
    }
  }

  /** A step that touches only items and join counts of `ref` leaves every other token where it is. */
  lemma {:induction false} OthersStay(c: Config, s: Core, s': Core, items: multiset<Item>, items': multiset<Item>, ref: nat, t: nat)
    requires t != ref && t < |s.mgr.tokens| && t < |s'.mgr.tokens| && s'.mgr.tokens[t] == s.mgr.tokens[t]
    requires Located(c, s, items, t)
    requires forall x: Item :: x.ref != ref ==> items'[x] == items[x]
    requires |s'.joins| == |s.joins|
    requires forall slot :: 0 <= slot < |s.joins| ==> (t in s'.joins[slot] <==> t in s.joins[slot])
    requires forall slot :: 0 <= slot < |s.joins| && t in s.joins[slot] ==> s'.joins[slot][t] == s.joins[slot][t]
    ensures Located(c, s', items', t)
  {
    var fanout := s.mgr.tokens[t].fanout;
    var k := |fanout|;
    assert forall x <- items' :: x.ref == t ==> x in items;
    if k < c.numLayers && SingleCopy(s, items, t, k) {
      assert SingleCopy(s', items', t, k);
    } else {
      assert Joined(s', k, t) == Joined(s, k, t);
      assert FannedOut(s', items', t, k - 1, fanout[k - 1]);
    }
  }

  /** Moving one token keeps all tokens located, if that token is located again or gone. */
  lemma {:induction false} Relocate(c: Config, s: Core, s': Core, items: multiset<Item>, items': multiset<Item>, ref: nat)
    requires AllLocated(c, s, items)
    requires |s'.mgr.tokens| == |s.mgr.tokens|
    requires forall t :: 0 <= t < |s.mgr.tokens| && t != ref ==> s'.mgr.tokens[t] == s.mgr.tokens[t]
    requires s'.mgr.completed == s.mgr.completed || s'.mgr.completed == s.mgr.completed + [ref]
    requires forall x: Item :: x.ref != ref ==> items'[x] == items[x]
    requires |s'.joins| == |s.joins|
    requires forall slot :: 0 <= slot < |s.joins| ==> s'.joins[slot] - {ref} == s.joins[slot] - {ref}
    requires Live(s'.mgr, ref) ==> Located(c, s', items', ref)
    requires !Live(s'.mgr, ref) ==> forall x <- items' :: x.ref != ref
    requires !Live(s'.mgr, ref) ==> forall slot :: 0 <= slot < |s.joins| ==> ref !in s'.joins[slot]
    ensures AllLocated(c, s', items')
  {
    assert forall t: nat :: t != ref ==> (Live(s'.mgr, t) <==> Live(s.mgr, t));
    forall t: nat | Live(s'.mgr, t) && t != ref ensures Located(c, s', items', t) {
      assert Live(s.mgr, t);
      forall slot | 0 <= slot < |s.joins|
        ensures t in s'.joins[slot] <==> t in s.joins[slot]
        ensures t in s.joins[slot] ==> s'.joins[slot][t] == s.joins[slot][t]
      {
        assert t in s'.joins[slot] <==> t in s'.joins[slot] - {ref};
        assert t in s.joins[slot] <==> t in s.joins[slot] - {ref};
      }
      OthersStay(c, s, s', items, items', ref, t);
    }
    forall slot, key | 0 <= slot < |s'.joins| && key in s'.joins[slot] ensures Live(s'.mgr, key) {
      if key != ref {
        assert key in s'.joins[slot] - {ref};
        assert key in s.joins[slot];
        assert Live(s.mgr, key);
      }
    }
    forall x <- items' ensures Live(s'.mgr, x.ref) {
      assert x.ref != ref ==> x in items;
    }
  }

  // ---------- issuing a token ----------

  lemma {:induction false} IssueToken(c: Config, s: Core, items: multiset<Item>, rid: nat, gap: nat)
    requires c.WellFormed() && Consistent(c, s, items, {rid}, gap)
    requires s.mgr.active[rid] < c.tokensPerRequest
    requires s.mgr.active[rid] == 0 ==> rid + 1 == s.mgr.nextHome
    ensures var r := DispatchNext(c, s.mgr, rid);
            && r.Success?
            && r.value.1 == [Work(0, |s.mgr.tokens|)]
            && r.value.0.pending == s.mgr.pending
            && r.value.0.active.Keys == s.mgr.active.Keys
            && Consistent(c, s.(mgr := r.value.0), items + AttentionItems(r.value.1), {}, gap)
  {
    var m := s.mgr;
    var m' := DispatchNext(c, m, rid).value.0;
    assert m'.active.Keys == m.active.Keys;
    IssuedLog(c, m, m', rid);
    var works := [Work(0, |m.tokens|)];
    assert AttentionItems(works) == multiset{Item(|m.tokens|, 0, Attention)} by {
      assert works[1..] == [];
    }
    IssuedLocation(c, s, items, m');
  }

  lemma {:induction false} IssuedLog(c: Config, m: Manager, m': Manager, rid: nat)
    requires c.WellFormed() && TokenLog(c, m) && OneLiveToken(m, {rid})
    requires rid in m.active && rid in m.home && m.active[rid] < c.tokensPerRequest
    requires rid < m.nextHome && m.home[rid] == rid % c.numWorkers
    requires m.active[rid] == 0 ==> rid + 1 == m.nextHome
    requires DispatchNext(c, m, rid).Success? && m' == DispatchNext(c, m, rid).value.0
    ensures TokenLog(c, m') && OneLiveToken(m', {})
  {
    var n := |m.tokens|;
    forall t | 0 <= t < n ensures TokenOk(c, m', t) {
      assert TokenOk(c, m, t);
    }
    forall i | 0 <= i < n && m.tokens[i].rid == rid ensures m.tokens[i].index < m.active[rid] {
      assert TokenOk(c, m, i);
    }
    assert InIssueOrder(m'.tokens) by {
      if m.active[rid] == 0 {
        FirstTokenOrder(c, m, rid);
      }
    }
    forall r, index | 0 <= r < m'.nextHome && 0 <= index < Issued(c, m', r)
      ensures HasToken(m'.tokens, r, index)
    {
      if r == rid && index == m.active[rid] {
        assert m'.tokens[n].rid == r && m'.tokens[n].index == index;
      } else {
        assert HasToken(m.tokens, r, index);
        var t :| 0 <= t < |m.tokens| && m.tokens[t].rid == r && m.tokens[t].index == index;
        assert m'.tokens[t] == m.tokens[t];
      }
    }
    LiveAfterIssue(c, m, m', rid);
  }

  /** A first token is issued only for the newest request. */
  lemma {:induction false} FirstTokenOrder(c: Config, m: Manager, rid: nat)
    requires c.WellFormed() && TokenLog(c, m) && rid in m.active && rid + 1 == m.nextHome
    requires m.active[rid] == 0
    ensures forall i :: 0 <= i < |m.tokens| ==> m.tokens[i].rid < rid
  {
    forall i | 0 <= i < |m.tokens| ensures m.tokens[i].rid < rid {
      assert TokenOk(c, m, i);
    }
  }

  lemma {:induction false} LiveAfterIssue(c: Config, m: Manager, m': Manager, rid: nat)
    requires c.WellFormed() && TokenLog(c, m) && OneLiveToken(m, {rid}) && rid in m.active
    requires DispatchNext(c, m, rid).Success? && m' == DispatchNext(c, m, rid).value.0
    requires m.active[rid] < c.tokensPerRequest && rid in m.home
    ensures OneLiveToken(m', {})
  {
    var n := |m.tokens|;
    assert n !in m.completed;
    forall t | 0 <= t < |m'.tokens|
      ensures t !in m'.completed <==>
              m'.tokens[t].rid in m'.active && m'.tokens[t].index + 1 == m'.active[m'.tokens[t].rid]
    {
      if t < n {
        assert TokenOk(c, m, t);
        assert m'.tokens[t] == m.tokens[t];
      }
    }
  }

  lemma {:induction false} IssuedLocation(c: Config, s: Core, items: multiset<Item>, m': Manager)
    requires c.WellFormed() && AllLocated(c, s, items)
    requires |m'.tokens| == |s.mgr.tokens| + 1 && m'.tokens[..|s.mgr.tokens|] == s.mgr.tokens
    requires m'.tokens[|s.mgr.tokens|].fanout == map[]
    requires m'.completed == s.mgr.completed
    requires forall i :: 0 <= i < |m'.completed| ==> m'.completed[i] < |s.mgr.tokens|
    ensures AllLocated(c, s.(mgr := m'), items + multiset{Item(|s.mgr.tokens|, 0, Attention)})
  {
    var n := |s.mgr.tokens|;
    var items' := items + multiset{Item(n, 0, Attention)};
    var s' := s.(mgr := m');
    forall slot, key | 0 <= slot < |s.joins| && key in s.joins[slot] ensures Live(m', key) {
      assert Live(s.mgr, key);
    }
    forall slot | 0 <= slot < |s.joins| ensures n !in s.joins[slot] {
      assert n in s.joins[slot] ==> Live(s.mgr, n);
    }
    assert Located(c, s', items', n) by {
      assert forall x <- items :: Live(s.mgr, x.ref);
      assert SingleCopy(s', items', n, 0);
    }
    forall t: nat | Live(m', t) && t < n ensures Located(c, s', items', t) {
      assert m'.tokens[t] == m'.tokens[..n][t];
      assert Live(s.mgr, t);
      OthersStay(c, s, s', items, items', n, t);
    }
  }

  // ---------- starting requests ----------

  lemma {:induction false} RegisteredRequest(c: Config, m: Manager, arrived: nat)
    requires c.WellFormed() && Requests(c, m, arrived, {}, 1) && m.HasRoom(c)
    requires TokenLog(c, m) && OneLiveToken(m, {})
    ensures var m1 := Registered(c, m, m.nextHome);
            && m.nextHome !in m.active
            && Requests(c, m1, arrived, {m.nextHome}, 0)
            && TokenLog(c, m1)
            && OneLiveToken(m1, {m.nextHome})
  {
    var m1 := Registered(c, m, m.nextHome);
    assert m1.active.Keys == m.active.Keys + {m.nextHome};
    forall t | 0 <= t < |m1.tokens| ensures TokenOk(c, m1, t) {
      assert TokenOk(c, m, t);
    }
    forall r, index | 0 <= r < m1.nextHome && 0 <= index < Issued(c, m1, r) ensures HasToken(m1.tokens, r, index) {
      assert Issued(c, m1, r) == Issued(c, m, r);
      assert HasToken(m.tokens, r, index);
    }
    forall t | 0 <= t < |m.tokens| ensures m.tokens[t].rid != m.nextHome {
      assert TokenOk(c, m, t);
    }
    hide TokenLog, TokenOk, HasToken, InIssueOrder, Issued;
  }

  lemma {:induction false} StartRequest(c: Config, s: Core, items: multiset<Item>)
    requires c.WellFormed() && Consistent(c, s, items, {}, 1) && s.mgr.HasRoom(c)
    ensures var r := StartNow(c, s.mgr, s.mgr.nextHome);
            && r.Success?
            && r.value.0.pending == s.mgr.pending
            && |r.value.0.tokens| > |s.mgr.tokens|
            && Consistent(c, s.(mgr := r.value.0), items + AttentionItems(r.value.1), {}, 0)
  {
    var rid := s.mgr.nextHome;
    var m1 := Registered(c, s.mgr, rid);
    hide Requests, AllLocated, TokenLog, OneLiveToken;
    RegisteredRequest(c, s.mgr, s.arrived);
    LocationFrame(c, s, s.(mgr := m1), items);
    IssueToken(c, s.(mgr := m1), items, rid, 0);
  }

  lemma {:induction false} PopPending(c: Config, m: Manager, arrived: nat)
    requires c.WellFormed() && Requests(c, m, arrived, {}, 0) && m.pending != []
    ensures m.pending[0] == m.nextHome
    ensures Requests(c, m.(pending := m.pending[1..]), arrived, {}, 1)
  {
  }

  lemma {:induction false} PushPending(c: Config, m: Manager, arrived: nat)
    requires c.WellFormed() && Requests(c, m, arrived, {}, 0) && arrived < c.totalRequests
    ensures Requests(c, m.(pending := m.pending + [arrived]), arrived + 1, {}, 0)
    ensures m.pending == [] ==> arrived == m.nextHome && Requests(c, m, arrived + 1, {}, 1)
  {
  }

  lemma {:induction false} AdmitQueuedKeeps(c: Config, s: Core, items: multiset<Item>)
    requires c.WellFormed() && Consistent(c, s, items, {}, 0)
    ensures var r := AdmitQueued(c, s.mgr);
            && r.Success?
            && (r.value.0.tokens == s.mgr.tokens || |r.value.0.tokens| > |s.mgr.tokens|)
            && Inv(c, s.(mgr := r.value.0), items + AttentionItems(r.value.1))
    decreases |s.mgr.pending|
  {
    hide Requests, AllLocated, TokenLog, OneLiveToken, StartNow;
    var m := s.mgr;
    if m.pending != [] && m.HasRoom(c) {
      var m0 := m.(pending := m.pending[1..]);
      LocationFrame(c, s, s.(mgr := m0), items);
      LogFrame(c, m, m0, {});
      PopPending(c, m, s.arrived);
      StartRequest(c, s.(mgr := m0), items);
      var (m1, works1) := StartNow(c, m0, m.pending[0]).value;
      AdmitQueuedKeeps(c, s.(mgr := m1), items + AttentionItems(works1));
      var (m2, works2) := AdmitQueued(c, m1).value;
      AttentionItemsConcat(works1, works2);
      assert items + AttentionItems(works1 + works2) == items + AttentionItems(works1) + AttentionItems(works2);
    } else {
      assert items + AttentionItems([]) == items;
    }
  }

  /** The arrival of a request never fails and keeps the invariant. */
  lemma {:induction false} ArriveKeeps(c: Config, s: Core, items: multiset<Item>)
    requires c.WellFormed() && Inv(c, s, items) && s.arrived < c.totalRequests
    ensures var r := Arrive(c, s);
            && r.Success?
            && r.value.0.arrived == s.arrived + 1
            && (r.value.0.mgr.tokens == s.mgr.tokens || |r.value.0.mgr.tokens| > |s.mgr.tokens|)
            && Inv(c, r.value.0, items + AttentionItems(r.value.1))
  {
    hide Requests, AllLocated, TokenLog, OneLiveToken, StartNow;
    var s0 := s.(arrived := s.arrived + 1);
    PushPending(c, s.mgr, s.arrived);
    if s.mgr.HasRoom(c) {
      LocationFrame(c, s, s0, items);
      StartRequest(c, s0, items);
    } else {
      var m' := s.mgr.(pending := s.mgr.pending + [s.arrived]);
      LocationFrame(c, s, s0.(mgr := m'), items);
      LogFrame(c, s.mgr, m', {});
      assert items + AttentionItems([]) == items;
    }
  }

  // ---------- fanning out ----------

  /** Routing a token that is in the attention stage turns its one copy into `fanout` replicas. */
  lemma {:induction false} RouteKeeps(c: Config, s: Core, items: multiset<Item>, ref: nat, layer: nat, fanout: nat)
    requires c.WellFormed() && Inv(c, s, items) && fanout >= 1
    requires Item(ref, layer, Attention) in items
    ensures ref < |s.mgr.tokens| && layer < c.numLayers && |s.mgr.tokens[ref].fanout| == layer
    ensures layer !in s.mgr.tokens[ref].fanout
    ensures Inv(c, RecordFanout(s, ref, layer, fanout),
                items - multiset{Item(ref, layer, Attention)} + multiset{}[Item(ref, layer, Expert) := fanout])
  {
    assert Live(s.mgr, ref) && Located(c, s, items, ref);
    var s' := RecordFanout(s, ref, layer, fanout);
    RouteLocation(c, s, items, ref, layer, fanout);
    hide AllLocated, TokenLog, OneLiveToken, Located;
    LogFrame(c, s.mgr, s'.mgr, {});
  }

  lemma {:induction false} RouteLocation(c: Config, s: Core, items: multiset<Item>, ref: nat, layer: nat, fanout: nat)
    requires AllLocated(c, s, items) && fanout >= 1
    requires Item(ref, layer, Attention) in items && ref < |s.mgr.tokens|
    ensures AllLocated(c, RecordFanout(s, ref, layer, fanout),
                       items - multiset{Item(ref, layer, Attention)} + multiset{}[Item(ref, layer, Expert) := fanout])
  {
    var items' := items - multiset{Item(ref, layer, Attention)} + multiset{}[Item(ref, layer, Expert) := fanout];
    var s' := RecordFanout(s, ref, layer, fanout);
    assert Live(s.mgr, ref) && Located(c, s, items, ref);
    FannedOutNow(c, s, items, ref, layer, fanout);
    Relocate(c, s, s', items, items', ref);
  }

  lemma {:induction false} FannedOutNow(c: Config, s: Core, items: multiset<Item>, ref: nat, layer: nat, fanout: nat)
    requires ref < |s.mgr.tokens| && Located(c, s, items, ref) && fanout >= 1
    requires Item(ref, layer, Attention) in items
    ensures Located(c, RecordFanout(s, ref, layer, fanout),
                    items - multiset{Item(ref, layer, Attention)} + multiset{}[Item(ref, layer, Expert) := fanout], ref)
  {
    var items' := items - multiset{Item(ref, layer, Attention)} + multiset{}[Item(ref, layer, Expert) := fanout];
    var s' := RecordFanout(s, ref, layer, fanout);
    var f, f' := s.mgr.tokens[ref].fanout, s'.mgr.tokens[ref].fanout;
    assert SingleCopy(s, items, ref, layer) && |f| == layer;
    assert |f'| == layer + 1 && f'[layer] == fanout;
    assert items[Item(ref, layer, Expert)] == 0;
    assert FannedOut(s', items', ref, layer, fanout);
  }

  // ---------- joining ----------

  /** A token with a replica in flight is fanned out at that replica's layer. */
  lemma {:induction false} ReplicaLocated(c: Config, s: Core, items: multiset<Item>, ref: nat, layer: nat)
    requires AllLocated(c, s, items) && Item(ref, layer, Expert) in items
    ensures Live(s.mgr, ref) && Located(c, s, items, ref)
    ensures layer < c.numLayers < |s.joins| == c.numLayers + 1 && |s.mgr.tokens[ref].fanout| == layer + 1
    ensures layer in s.mgr.tokens[ref].fanout && FannedOut(s, items, ref, layer, s.mgr.tokens[ref].fanout[layer])
  {
    assert Live(s.mgr, ref) && Located(c, s, items, ref);
  }

  /** A returning replica finds its token fanned out at that replica's layer. */
  lemma {:induction false} ReplicaAtHome(c: Config, s: Core, items: multiset<Item>, ref: nat, layer: nat)
    requires c.WellFormed() && Inv(c, s, items) && Item(ref, layer, Expert) in items
    ensures Live(s.mgr, ref) && s.mgr.tokens[ref].tid == ref
    ensures layer < c.numLayers < |s.joins| == c.numLayers + 1 && |s.mgr.tokens[ref].fanout| == layer + 1
    ensures layer in s.mgr.tokens[ref].fanout && FannedOut(s, items, ref, layer, s.mgr.tokens[ref].fanout[layer])
    ensures items[Item(ref, layer, Expert)] + Joined(s, layer + 1, ref) == s.mgr.tokens[ref].fanout[layer]
  {
    hide AllLocated, Located, Requests, OneLiveToken, Saturated;
    ReplicaLocated(c, s, items, ref, layer);
    assert TokenOk(c, s.mgr, ref);
  }

  lemma {:induction false} EarlyLocated(c: Config, s: Core, items: multiset<Item>, ref: nat, layer: nat, counts: map<nat, nat>)
    requires ref < |s.mgr.tokens| && Located(c, s, items, ref) && layer + 1 < |s.joins|
    requires counts == s.joins[layer + 1][ref := Joined(s, layer + 1, ref) + 1]
    requires |s.mgr.tokens[ref].fanout| == layer + 1 && items[Item(ref, layer, Expert)] >= 2
    ensures Located(c, s.(joins := s.joins[layer + 1 := counts]), items - multiset{Item(ref, layer, Expert)}, ref)
  {
    assert layer in s.mgr.tokens[ref].fanout;
    var fanout := s.mgr.tokens[ref].fanout[layer];
    assert FannedOut(s, items, ref, layer, fanout);
    assert FannedOut(s.(joins := s.joins[layer + 1 := counts]), items - multiset{Item(ref, layer, Expert)}, ref, layer, fanout);
  }

  lemma {:induction false} EarlyReplica(c: Config, s: Core, items: multiset<Item>, ref: nat, layer: nat, counts: map<nat, nat>)
    requires c.WellFormed() && AllLocated(c, s, items) && Item(ref, layer, Expert) in items
    requires layer + 1 < |s.joins|
    requires counts == s.joins[layer + 1][ref := Joined(s, layer + 1, ref) + 1]
    requires items[Item(ref, layer, Expert)] >= 2
    ensures AllLocated(c, s.(joins := s.joins[layer + 1 := counts]), items - multiset{Item(ref, layer, Expert)})
  {
    hide AllLocated, Located, FannedOut;
    ReplicaLocated(c, s, items, ref, layer);
    EarlyLocated(c, s, items, ref, layer, counts);
    Relocate(c, s, s.(joins := s.joins[layer + 1 := counts]), items, items - multiset{Item(ref, layer, Expert)}, ref);
  }

  lemma {:induction false} LastLocated(c: Config, s: Core, items: multiset<Item>, ref: nat, layer: nat)
    requires ref < |s.mgr.tokens| && Located(c, s, items, ref) && layer + 1 < |s.joins| && layer + 1 < c.numLayers
    requires |s.mgr.tokens[ref].fanout| == layer + 1 && items[Item(ref, layer, Expert)] == 1
    ensures Located(c, s.(joins := s.joins[layer + 1 := s.joins[layer + 1] - {ref}]),
                    items - multiset{Item(ref, layer, Expert)} + multiset{Item(ref, layer + 1, Attention)}, ref)
  {
    assert layer in s.mgr.tokens[ref].fanout;
    assert FannedOut(s, items, ref, layer, s.mgr.tokens[ref].fanout[layer]);
    var s' := s.(joins := s.joins[layer + 1 := s.joins[layer + 1] - {ref}]);
    assert items[Item(ref, layer + 1, Attention)] == 0;
    assert SingleCopy(s', items - multiset{Item(ref, layer, Expert)} + multiset{Item(ref, layer + 1, Attention)}, ref, layer + 1);
  }

  lemma {:induction false} LastReplica(c: Config, s: Core, items: multiset<Item>, ref: nat, layer: nat)
    requires c.WellFormed() && AllLocated(c, s, items) && Item(ref, layer, Expert) in items
    requires layer + 1 < c.numLayers && items[Item(ref, layer, Expert)] == 1 && layer + 1 < |s.joins|
    ensures AllLocated(c, s.(joins := s.joins[layer + 1 := s.joins[layer + 1] - {ref}]),
                       items - multiset{Item(ref, layer, Expert)} + AttentionItems([Work(layer + 1, ref)]))
  {
    hide AllLocated, Located, FannedOut;
    ReplicaLocated(c, s, items, ref, layer);
    LastLocated(c, s, items, ref, layer);
    var works := [Work(layer + 1, ref)];
    assert AttentionItems(works) == multiset{Item(ref, layer + 1, Attention)} by {
      assert works[1..] == [];
    }
    var items' := items - multiset{Item(ref, layer, Expert)} + multiset{Item(ref, layer + 1, Attention)};
    Relocate(c, s, s.(joins := s.joins[layer + 1 := s.joins[layer + 1] - {ref}]), items, items', ref);
  }

  /** The token's last replica of the last layer is back: the token is recorded as completed. */
  function Completed(s: Core, ref: nat): Core {
    s.(mgr := s.mgr.(completed := s.mgr.completed + [ref]),
       joins := if |s.joins| == 0 then [] else s.joins[|s.joins| - 1 := s.joins[|s.joins| - 1] - {ref}])
  }

  lemma {:induction false} CompletedJoins(s: Core, ref: nat, slot: nat)
    requires slot < |s.joins|
    requires ref in s.joins[slot] ==> slot == |s.joins| - 1
    ensures ref !in Completed(s, ref).joins[slot]
    ensures Completed(s, ref).joins[slot] - {ref} == s.joins[slot] - {ref}
  {
  }

  lemma {:induction false} CompletedLocation(c: Config, s: Core, items: multiset<Item>, ref: nat, fanout: nat)
    requires AllLocated(c, s, items) && Live(s.mgr, ref) && 1 <= c.numLayers
    requires FannedOut(s, items, ref, c.numLayers - 1, fanout) && |s.joins| == c.numLayers + 1
    requires items[Item(ref, c.numLayers - 1, Expert)] == 1
    ensures AllLocated(c, Completed(s, ref), items - multiset{Item(ref, c.numLayers - 1, Expert)})
  {
    hide AllLocated, Located;
    var s' := Completed(s, ref);
    var items' := items - multiset{Item(ref, c.numLayers - 1, Expert)};
    assert !Live(s'.mgr, ref) by {
      assert s'.mgr.completed[|s.mgr.completed|] == ref;
    }
    forall slot | 0 <= slot < |s.joins|
      ensures ref !in s'.joins[slot] && s'.joins[slot] - {ref} == s.joins[slot] - {ref}
    {
      CompletedJoins(s, ref, slot);
    }
    forall x <- items' ensures x.ref != ref {
      assert x in items;
    }
    hide Live, FannedOut;
    Relocate(c, s, s', items, items', ref);
  }

  lemma {:induction false} CompletedToken(c: Config, s: Core, items: multiset<Item>, ref: nat)
    requires c.WellFormed() && Inv(c, s, items)
    requires items[Item(ref, c.numLayers - 1, Expert)] == 1
    ensures Live(s.mgr, ref)
    ensures s.mgr.tokens[ref].rid in s.mgr.active
    ensures s.mgr.active[s.mgr.tokens[ref].rid] == s.mgr.tokens[ref].index + 1
    ensures Consistent(c, Completed(s, ref), items - multiset{Item(ref, c.numLayers - 1, Expert)}, {s.mgr.tokens[ref].rid}, 0)
  {
    hide AllLocated, TokenLog, FannedOut;
    ReplicaAtHome(c, s, items, ref, c.numLayers - 1);
    assert s.mgr.tokens[ref].rid in s.mgr.active;
    hide OneLiveToken;
    CompletedLocation(c, s, items, ref, s.mgr.tokens[ref].fanout[c.numLayers - 1]);
    CompletedLog(c, s.mgr, ref);
  }

  lemma {:induction false} CompletedLog(c: Config, m: Manager, ref: nat)
    requires c.WellFormed() && TokenLog(c, m) && OneLiveToken(m, {}) && Live(m, ref)
    ensures TokenLog(c, m.(completed := m.completed + [ref]))
    ensures OneLiveToken(m.(completed := m.completed + [ref]), {m.tokens[ref].rid})
  {
    var m' := m.(completed := m.completed + [ref]);
    forall t | 0 <= t < |m.tokens| ensures TokenOk(c, m', t) {
      assert TokenOk(c, m, t);
    }
    forall r, index | 0 <= r < m'.nextHome && 0 <= index < Issued(c, m', r) ensures HasToken(m'.tokens, r, index) {
      assert Issued(c, m', r) == Issued(c, m, r);
      assert HasToken(m.tokens, r, index);
    }
    forall t | 0 <= t < |m.tokens| && t != ref && m.tokens[t].rid == m.tokens[ref].rid
      ensures m.tokens[t].index != m.tokens[ref].index
    {
      assert t < ref || ref < t;
    }
  }

  /** Dropping a request whose tokens are all issued and completed. */
  lemma {:induction false} RetireRequest(c: Config, s: Core, items: multiset<Item>, rid: nat)
    requires c.WellFormed() && Consistent(c, s, items, {rid}, 0)
    requires s.mgr.active[rid] == c.tokensPerRequest
    ensures Consistent(c, s.(mgr := s.mgr.(active := s.mgr.active - {rid}, home := s.mgr.home - {rid})), items, {}, 0)
  {
    var m := s.mgr;
    var m' := m.(active := m.active - {rid}, home := m.home - {rid});
    assert m.active.Keys == m'.active.Keys + {rid};
    LocationFrame(c, s, s.(mgr := m'), items);
    hide AllLocated;
    forall t | 0 <= t < |m.tokens| ensures TokenOk(c, m', t) {
      assert TokenOk(c, m, t);
    }
    forall r, index | 0 <= r < m'.nextHome && 0 <= index < Issued(c, m', r) ensures HasToken(m'.tokens, r, index) {
      assert Issued(c, m', r) == Issued(c, m, r);
      assert HasToken(m.tokens, r, index);
    }
  }

  lemma {:induction false} FinalJoinKeeps(c: Config, s: Core, items: multiset<Item>, ref: nat)
    requires c.WellFormed() && Inv(c, s, items) && items[Item(ref, c.numLayers - 1, Expert)] == 1
    ensures ref < |s.mgr.tokens|
    ensures var r := HandleCompletion(c, s.mgr, ref);
            && r.Success?
            && (r.value.0.tokens == s.mgr.tokens || |r.value.0.tokens| > |s.mgr.tokens|)
            && Inv(c, Completed(s, ref).(mgr := r.value.0),
                   items - multiset{Item(ref, c.numLayers - 1, Expert)} + AttentionItems(r.value.1))
  {
    hide AllLocated, TokenLog, OneLiveToken;
    CompletedToken(c, s, items, ref);
    var rest := items - multiset{Item(ref, c.numLayers - 1, Expert)};
    var rid := s.mgr.tokens[ref].rid;
    var s1 := Completed(s, ref);
    if s.mgr.tokens[ref].index + 1 < c.tokensPerRequest {
      IssueToken(c, s1, rest, rid, 0);
    } else {
      RetireRequest(c, s1, rest, rid);
      AdmitQueuedKeeps(c, s1.(mgr := s1.mgr.(active := s1.mgr.active - {rid}, home := s1.mgr.home - {rid})), rest);
    }
  }

  /** The return of an outstanding replica never fails and keeps the invariant. */
  lemma {:induction false} JoinKeeps(c: Config, s: Core, items: multiset<Item>, ref: nat, layer: nat)
    requires c.WellFormed() && Inv(c, s, items) && Item(ref, layer, Expert) in items
    ensures ref < |s.mgr.tokens| && layer < c.numLayers < |s.joins|
    ensures var r := Join(c, s, ref, layer);
            && r.Success?
            && r.value.0.arrived == s.arrived
            && (r.value.0.mgr.tokens == s.mgr.tokens || |r.value.0.mgr.tokens| > |s.mgr.tokens|)
            && Inv(c, r.value.0, items - multiset{Item(ref, layer, Expert)} + AttentionItems(r.value.1))
  {
    ReplicaAtHome(c, s, items, ref, layer) by {
      hide *;
    }
    hide AllLocated, TokenLog, OneLiveToken, FannedOut, Requests, Saturated, HandleCompletion;
    var rest := items - multiset{Item(ref, layer, Expert)};
    if items[Item(ref, layer, Expert)] >= 2 {
      EarlyReplica(c, s, items, ref, layer, s.joins[layer + 1][ref := Joined(s, layer + 1, ref) + 1]);
      assert rest + AttentionItems([]) == rest;
    } else if layer + 1 < c.numLayers {
      LastReplica(c, s, items, ref, layer);
    } else {
      FinalJoinKeeps(c, s, items, ref);
    }
  }
}

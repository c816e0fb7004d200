/** Counting by sets: sequences without repetition, and the pigeonhole principle. */
module Counting {

  ghost predicate Distinct<T>(s: seq<T>) {
    forall i, j :: 0 <= i < j < |s| ==> s[i] != s[j]
  }

  ghost function Range(n: nat): (r: set<nat>)
    ensures |r| == n && forall x :: x in r <==> 0 <= x < n
  {
    if n == 0 then {} else Range(n - 1) + {n - 1}
  }

  ghost function Elements<T(!new)>(s: seq<T>): (r: set<T>)
    ensures forall x :: x in r <==> x in s
    ensures Distinct(s) ==> |r| == |s|
  {
    if s == [] then {}
    else
      assert Distinct(s) ==> Distinct(s[1..]) && s[0] !in s[1..];
      {s[0]} + Elements(s[1..])
  }

  lemma {:induction false} SubsetSize<T>(a: set<T>, b: set<T>)
    requires a <= b
    ensures |a| <= |b|
    ensures |a| == |b| ==> a == b
  {
    assert b == a + (b - a);
  }

  /** Distinct numbers below n: at most n of them, and exactly n when and only when none is missing. */
  lemma {:induction false} Pigeonhole(s: seq<nat>, n: nat)
    requires Distinct(s) && forall i :: 0 <= i < |s| ==> s[i] < n
    ensures |s| <= n
    ensures (forall x: nat :: x < n ==> x in s) <==> |s| == n
  {
    SubsetSize(Elements(s), Range(n));
    if forall x: nat :: x < n ==> x in s {
      assert Elements(s) == Range(n);
    }
    if |s| == n {
      assert forall x: nat :: x < n ==> x in Elements(s);
    }
  }

  lemma {:induction false} MulOrder(a: nat, b: nat, c: nat)
    ensures a >= b ==> a * c >= b * c
  {
    if a >= b {
      assert (a - b) * c == a * c - b * c;
    }
  }

  /** A number below n * t splits into a quotient below n and a remainder. */
  lemma {:induction false} QuotientBound(n: nat, t: nat, x: nat)
    requires x < n * t
    ensures t > 0 && x / t < n && 0 <= x % t < t && (x / t) * t + x % t == x
  {
    assert t > 0;
    MulOrder(x / t, n, t);
  }

  /** Quotient and remainder determine a number, and stay below the bound. */
  lemma {:induction false} CodeBound(n: nat, t: nat, q: nat, r: nat)
    requires q < n && r < t
    ensures q * t + r < n * t
  {
    assert q * t + t == (q + 1) * t;
    MulOrder(n, q + 1, t);
  }

  lemma {:induction false} CodeInjective(t: nat, q1: nat, r1: nat, q2: nat, r2: nat)
    requires r1 < t && r2 < t && q1 * t + r1 == q2 * t + r2
    ensures q1 == q2 && r1 == r2
  {
    assert q1 <= q2 by {
      if q2 < q1 {
        CodeBound(q1, t, q2, r2);
      }
    }
    assert q2 <= q1 by {
      if q1 < q2 {
        CodeBound(q2, t, q1, r1);
      }
    }
  }

  lemma {:induction false} QuotientOf(t: nat, q: nat, r: nat)
    requires r < t
    ensures (q * t + r) / t == q && (q * t + r) % t == r
  {
    var x := q * t + r;
    DivMod(x, t);
    CodeInjective(t, x / t, x % t, q, r);
  }

  lemma {:induction false} DivMod(x: nat, t: nat)
    requires t > 0
    ensures x / t * t + x % t == x && 0 <= x % t < t
  {
  }

  // ---------- multisets ----------

  lemma {:induction false} Cancel<T>(x: multiset<T>, r: multiset<T>, y: multiset<T>)
    requires x + r == y + r
    ensures x == y
  {
    forall e ensures x[e] == y[e] {
      assert (x + r)[e] == (y + r)[e];
    }
  }

  lemma {:induction false} AddLeft<T>(a: multiset<T>, x: multiset<T>, p: multiset<T>, y: multiset<T>, q: multiset<T>)
    requires x + p == y + q
    ensures a + x + p == a + y + q
  {
    assert a + x + p == a + (x + p);
    assert a + y + q == a + (y + q);
  }
}

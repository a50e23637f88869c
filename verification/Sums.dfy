/** Sums over balance vectors, and what index maps do to them. */
module Sums {
  function Sum(s: seq<int>): int
  {
    if s == [] then 0 else Sum(s[..|s| - 1]) + s[|s| - 1]
  }

  lemma SmallSum(row: seq<int>)
    requires |row| <= 2
    ensures Sum(row) == (if |row| > 0 then row[0] else 0) + if |row| > 1 then row[1] else 0
  {
    if |row| == 2 {
      assert row[..1][..0] == [];
    } else if |row| == 1 {
      assert row[..0] == [];
    }
  }

  lemma SumSnoc(s: seq<int>, x: int)
    ensures Sum(s + [x]) == Sum(s) + x
  {
    assert (s + [x])[..|s|] == s;
  }

  lemma {:induction false} SumUpdate(s: seq<int>, i: nat, x: int)
    requires i < |s|
    ensures Sum(s[i := x]) == Sum(s) - s[i] + x
  {
    var n := |s| - 1;
    if i == n {
      assert s[i := x][..n] == s[..n];
    } else {
      SumUpdate(s[..n], i, x);
      assert s[i := x][..n] == s[..n][i := x];
    }
  }

  lemma {:induction false} SumPointwise(a: seq<int>, b: seq<int>, c: seq<int>)
    requires |a| == |b| == |c|
    requires forall i :: 0 <= i < |a| ==> c[i] == a[i] + b[i]
    ensures Sum(c) == Sum(a) + Sum(b)
  {
    if |a| > 0 {
      var n := |a| - 1;
      SumPointwise(a[..n], b[..n], c[..n]);
    }
  }

  lemma {:induction false} SumZeros(s: seq<int>)
    requires forall i :: 0 <= i < |s| ==> s[i] == 0
    ensures Sum(s) == 0
  {
    if |s| > 0 {
      SumZeros(s[..|s| - 1]);
    }
  }

  lemma {:induction false} SumMonotone(a: seq<int>, b: seq<int>)
    requires |a| == |b|
    requires forall i :: 0 <= i < |a| ==> a[i] <= b[i]
    ensures Sum(a) <= Sum(b)
  {
    if |a| > 0 {
      SumMonotone(a[..|a| - 1], b[..|b| - 1]);
    }
  }

  function Zeros(n: nat): (z: seq<int>)
    ensures |z| == n && forall i :: 0 <= i < n ==> z[i] == 0
  {
    seq(n, i => 0)
  }

  predicate InRange(m: seq<nat>, n: nat) {
    forall p :: 0 <= p < |m| ==> m[p] < n
  }

  predicate Injective(m: seq<nat>) {
    forall p, q :: 0 <= p < q < |m| ==> m[p] != m[q]
  }

  /** The first k entries of b written one after the other at the places m names,
      into a vector of n zeros: a later entry overwrites an earlier one. */
  function Scatter(b: seq<int>, n: nat, m: seq<nat>, k: nat): (r: seq<int>)
    requires k <= |m| && k <= |b| && InRange(m, n)
    ensures |r| == n
  {
    if k == 0 then Zeros(n) else Scatter(b, n, m, k - 1)[m[k - 1] := b[k - 1]]
  }

  /** Without repeated targets every entry lands and everything else stays zero. */
  lemma {:induction false} ScatterAt(b: seq<int>, n: nat, m: seq<nat>, k: nat)
    requires k <= |m| && k <= |b| && InRange(m, n) && Injective(m)
    ensures forall p :: 0 <= p < k ==> Scatter(b, n, m, k)[m[p]] == b[p]
    ensures forall x :: 0 <= x < n && x !in m[..k] ==> Scatter(b, n, m, k)[x] == 0
  {
    if k > 0 {
      ScatterAt(b, n, m, k - 1);
      assert m[..k] == m[..k - 1] + [m[k - 1]];
    }
  }

  lemma {:induction false} ScatterSum(b: seq<int>, n: nat, m: seq<nat>, k: nat)
    requires k <= |m| && k <= |b| && InRange(m, n) && Injective(m)
    ensures Sum(Scatter(b, n, m, k)) == Sum(b[..k])
  {
    if k == 0 {
      SumZeros(Zeros(n));
    } else {
      ScatterSum(b, n, m, k - 1);
      ScatterAt(b, n, m, k - 1);
      var was := Scatter(b, n, m, k - 1);
      assert m[k - 1] !in m[..k - 1];
      assert was[m[k - 1]] == 0;
      SumUpdate(was, m[k - 1], b[k - 1]);
      SumSnoc(b[..k - 1], b[k - 1]);
      assert b[..k] == b[..k - 1] + [b[k - 1]];
    }
  }

  lemma {:induction false} ScatterNonNegative(b: seq<int>, n: nat, m: seq<nat>, k: nat)
    requires k <= |m| && k <= |b| && InRange(m, n)
    requires forall i :: 0 <= i < |b| ==> b[i] >= 0
    ensures forall x :: 0 <= x < n ==> Scatter(b, n, m, k)[x] >= 0
  {
    if k > 0 {
      ScatterNonNegative(b, n, m, k - 1);
    }
  }

  /** Where two entries share a target the first one is lost, so a vector that
      holds one unit at the first of them loses it. */
  lemma {:induction false} ScatterLoses(b: seq<int>, n: nat, m: seq<nat>, p: nat, k: nat)
    requires k <= |m| == |b| && InRange(m, n) && p < |m|
    requires b == Zeros(|m|)[p := 1]
    ensures Sum(Scatter(b, n, m, k)) ==
            if p < k && (forall q :: p < q < k ==> m[q] != m[p]) then 1 else 0
    ensures forall x :: 0 <= x < n ==>
              Scatter(b, n, m, k)[x] ==
              if x == m[p] && p < k && (forall q :: p < q < k ==> m[q] != m[p]) then 1 else 0
  {
    if k == 0 {
      SumZeros(Zeros(n));
    } else {
      ScatterLoses(b, n, m, p, k - 1);
      SumUpdate(Scatter(b, n, m, k - 1), m[k - 1], b[k - 1]);
    }
  }

  /** Sum of all values of a map. */
  ghost function MapSum<K>(m: map<K, int>): int {
    if m == map[] then 0
    else
      assert m.Keys != {};
      var k :| k in m;
      m[k] + MapSum(m - {k})
  }

  lemma {:induction false} MapSumRemove<K>(m: map<K, int>, k: K)
    requires k in m
    ensures MapSum(m) == m[k] + MapSum(m - {k})
    decreases |m|
  {
    assert m != map[];
    var j :| j in m && MapSum(m) == m[j] + MapSum(m - {j});
    if j != k {
      MapSumRemove(m - {j}, k);
      MapSumRemove(m - {k}, j);
      assert m - {j} - {k} == m - {k} - {j};
    }
  }

  lemma MapSumUpdate<K>(m: map<K, int>, k: K, v: int)
    ensures MapSum(m[k := v]) == v + MapSum(m) - if k in m then m[k] else 0
  {
    MapSumRemove(m[k := v], k);
    assert m[k := v] - {k} == m - {k};
    if k in m {
      MapSumRemove(m, k);
    } else {
      assert m - {k} == m;
    }
  }
}

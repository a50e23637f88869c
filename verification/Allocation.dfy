/** Balances, sub-allocations and allocations (channel/allocation.go). */
module Allocations {
  import opened Base
  import opened Sums

  const MAX_NUM_ASSETS := 1024
  const MAX_NUM_PARTS := 1024
  const MAX_NUM_SUB_ALLOCATIONS := 1024

  type Bal = int
  type Balances = seq<seq<Bal>>
  type ID = bytes
  type Asset = bytes
  type Index = nat

  datatype SubAlloc = SubAlloc(id: ID, bals: seq<Bal>, indexMap: seq<Index>)

  datatype Allocation = Allocation(assets: seq<Asset>, balances: Balances, locked: seq<SubAlloc>)

  /** One unit vector of balances per asset, all of the same length. */
  predicate SameDims(a: Balances, b: Balances) {
    |a| == |b| && forall i :: 0 <= i < |a| ==> |a[i]| == |b[i]|
  }

  predicate ValidSubAlloc(s: SubAlloc) {
    |s.bals| <= MAX_NUM_ASSETS && forall j :: 0 <= j < |s.bals| ==> s.bals[j] >= 0
  }

  predicate ValidRow(row: seq<Bal>, numParts: nat) {
    |row| == numParts && forall j :: 0 <= j < |row| ==> row[j] >= 0
  }

  predicate ValidAlloc(a: Allocation) {
    && 0 < |a.assets| <= MAX_NUM_ASSETS
    && |a.locked| <= MAX_NUM_SUB_ALLOCATIONS
    && |a.balances| == |a.assets|
    && 0 < |a.balances[0]| <= MAX_NUM_PARTS
    && (forall i :: 0 <= i < |a.balances| ==> ValidRow(a.balances[i], |a.balances[0]|))
    && (forall k :: 0 <= k < |a.locked| ==> ValidSubAlloc(a.locked[k]) && |a.locked[k].bals| == |a.assets|)
  }

  function NumParts(a: Allocation): int {
    if a.balances == [] then -1 else |a.balances[0]|
  }

  // ----- sums

  function BalAt(s: SubAlloc, asset: nat): Bal {
    if asset < |s.bals| then s.bals[asset] else 0
  }

  function LockedTotal(locked: seq<SubAlloc>, asset: nat): int {
    if locked == [] then 0
    else LockedTotal(locked[..|locked| - 1], asset) + BalAt(locked[|locked| - 1], asset)
  }

  function SumBalances(b: Balances): (t: seq<Bal>)
    ensures |t| == |b|
  {
    seq(|b|, i requires 0 <= i < |b| => Sum(b[i]))
  }

  /** Per-asset total over all participants and all locked funds. */
  function SumAlloc(a: Allocation): (t: seq<Bal>)
    ensures |t| == |a.balances|
  {
    seq(|a.balances|, i requires 0 <= i < |a.balances| => Sum(a.balances[i]) + LockedTotal(a.locked, i))
  }

  lemma {:induction false} LockedTotalAppend(a: seq<SubAlloc>, b: seq<SubAlloc>, asset: nat)
    ensures LockedTotal(a + b, asset) == LockedTotal(a, asset) + LockedTotal(b, asset)
  {
    if b == [] {
      assert a + b == a;
    } else {
      LockedTotalAppend(a, b[..|b| - 1], asset);
      assert (a + b)[..|a + b| - 1] == a + b[..|b| - 1];
    }
  }

  lemma LockedTotalRemove(locked: seq<SubAlloc>, k: nat, asset: nat)
    requires k < |locked|
    ensures LockedTotal(locked[..k] + locked[k + 1..], asset) == LockedTotal(locked, asset) - BalAt(locked[k], asset)
  {
    LockedTotalAppend(locked[..k], locked[k + 1..], asset);
    LockedTotalAppend(locked[..k], [locked[k]], asset);
    LockedTotalAppend(locked[..k] + [locked[k]], locked[k + 1..], asset);
    assert locked == locked[..k] + [locked[k]] + locked[k + 1..];
    assert LockedTotal([locked[k]], asset) == BalAt(locked[k], asset) by {
      assert [locked[k]][..0] == [];
    }
  }

  lemma LockedTotalSnoc(locked: seq<SubAlloc>, s: SubAlloc, asset: nat)
    ensures LockedTotal(locked + [s], asset) == LockedTotal(locked, asset) + BalAt(s, asset)
  {
    assert (locked + [s])[..|locked|] == locked;
  }

  /** Balances.Sum: running totals, one per asset. */
  method SumBalancesLoop(b: Balances) returns (totals: seq<Bal>)
    ensures totals == SumBalances(b)
  {
    totals := Zeros(|b|);
    for i := 0 to |b|
      invariant |totals| == |b|
      invariant forall k :: 0 <= k < i ==> totals[k] == Sum(b[k])
      invariant forall k :: i <= k < |b| ==> totals[k] == 0
    {
      for j := 0 to |b[i]|
        invariant |totals| == |b|
        invariant forall k :: 0 <= k < i ==> totals[k] == Sum(b[k])
        invariant totals[i] == Sum(b[i][..j])
        invariant forall k :: i < k < |b| ==> totals[k] == 0
      {
        assert b[i][..j + 1][..j] == b[i][..j];
        totals := totals[i := totals[i] + b[i][j]];
      }
      assert b[i][..|b[i]|] == b[i];
    }
  }

  /** Allocation.Sum. A sub-allocation longer than the balances makes the source panic. */
  method SumAllocLoop(a: Allocation) returns (totals: seq<Bal>)
    requires forall k :: 0 <= k < |a.locked| ==> |a.locked[k].bals| <= |a.balances|
    ensures totals == SumAlloc(a)
  {
    totals := SumBalancesLoop(a.balances);
    for k := 0 to |a.locked|
      invariant |totals| == |a.balances|
      invariant forall i :: 0 <= i < |totals| ==> totals[i] == Sum(a.balances[i]) + LockedTotal(a.locked[..k], i)
    {
      var s := a.locked[k];
      ghost var before := totals;
      assert a.locked[..k + 1][..k] == a.locked[..k];
      for i := 0 to |s.bals|
        invariant |totals| == |before|
        invariant forall x :: 0 <= x < |before| ==> totals[x] == before[x] + if x < i then s.bals[x] else 0
      {
        totals := totals[i := totals[i] + s.bals[i]];
      }
    }
    assert a.locked[..|a.locked|] == a.locked;
  }

  // ----- pointwise operations

  /** Balances.operate: None where the source panics on mismatched dimensions. */
  method Operate(b: Balances, a: Balances, op: (Bal, Bal) -> Bal) returns (c: Option<Balances>)
    ensures c.Some? <==> SameDims(a, b)
    ensures c.Some? ==> SameDims(a, c.value)
    ensures c.Some? ==> forall i, j :: 0 <= i < |a| && 0 <= j < |a[i]| ==> c.value[i][j] == op(b[i][j], a[i][j])
  {
    if |a| != |b| {
      return None;
    }
    var m: Balances := [];
    for i := 0 to |a|
      invariant |m| == i
      invariant forall k :: 0 <= k < i ==> |a[k]| == |b[k]| == |m[k]|
      invariant forall k, j :: 0 <= k < i && 0 <= j < |a[k]| ==> m[k][j] == op(b[k][j], a[k][j])
    {
      if |a[i]| != |b[i]| {
        return None;
      }
      var row: seq<Bal> := [];
      for j := 0 to |a[i]|
        invariant |row| == j
        invariant forall x :: 0 <= x < j ==> row[x] == op(b[i][x], a[i][x])
      {
        row := row + [op(b[i][j], a[i][j])];
      }
      m := m + [row];
    }
    c := Some(m);
  }

  function AddRow(b: seq<Bal>, a: seq<Bal>): (c: seq<Bal>)
    requires |a| == |b|
    ensures |c| == |b|
  {
    seq(|b|, j requires 0 <= j < |b| => b[j] + a[j])
  }

  function SubRow(b: seq<Bal>, a: seq<Bal>): (c: seq<Bal>)
    requires |a| == |b|
    ensures |c| == |b|
  {
    seq(|b|, j requires 0 <= j < |b| => b[j] - a[j])
  }

  /** Balances.Add and Balances.Sub on matching dimensions. */
  function AddBalances(b: Balances, a: Balances): (c: Balances)
    requires SameDims(a, b)
    ensures SameDims(c, b)
  {
    seq(|b|, i requires 0 <= i < |b| => AddRow(b[i], a[i]))
  }

  function SubBalances(b: Balances, a: Balances): (c: Balances)
    requires SameDims(a, b)
    ensures SameDims(c, b)
  {
    seq(|b|, i requires 0 <= i < |b| => SubRow(b[i], a[i]))
  }

  method Add(b: Balances, a: Balances) returns (c: Option<Balances>)
    ensures c == if SameDims(a, b) then Some(AddBalances(b, a)) else None
  {
    c := Operate(b, a, (x, y) => x + y);
    if c.Some? {
      assert forall i :: 0 <= i < |b| ==> c.value[i] == AddBalances(b, a)[i];
      assert c.value == AddBalances(b, a);
    }
  }

  method Sub(b: Balances, a: Balances) returns (c: Option<Balances>)
    ensures c == if SameDims(a, b) then Some(SubBalances(b, a)) else None
  {
    c := Operate(b, a, (x, y) => x - y);
    if c.Some? {
      assert forall i :: 0 <= i < |b| ==> c.value[i] == SubBalances(b, a)[i];
      assert c.value == SubBalances(b, a);
    }
  }

  /** Addition and subtraction are inverse to each other. */
  lemma AddSubInverse(b: Balances, a: Balances)
    requires SameDims(a, b)
    ensures SubBalances(AddBalances(b, a), a) == b
    ensures AddBalances(SubBalances(b, a), a) == b
  {
    forall i | 0 <= i < |b|
      ensures SubBalances(AddBalances(b, a), a)[i] == b[i] && AddBalances(SubBalances(b, a), a)[i] == b[i]
    {
      assert SubRow(AddRow(b[i], a[i]), a[i]) == b[i];
      assert AddRow(SubRow(b[i], a[i]), a[i]) == b[i];
    }
  }

  /** Addition and subtraction move every asset total by the total of the operand. */
  lemma OperateTotals(b: Balances, a: Balances, i: nat)
    requires SameDims(a, b) && i < |b|
    ensures Sum(AddBalances(b, a)[i]) == Sum(b[i]) + Sum(a[i])
    ensures Sum(SubBalances(b, a)[i]) == Sum(b[i]) - Sum(a[i])
  {
    SumPointwise(b[i], a[i], AddRow(b[i], a[i]));
    SumPointwise(SubRow(b[i], a[i]), a[i], b[i]);
  }

  /** AssertGreaterOrEqual. */
  predicate GreaterOrEqual(b: Balances, a: Balances) {
    && SameDims(a, b)
    && forall i, j :: 0 <= i < |a| && 0 <= j < |a[i]| ==> a[i][j] <= b[i][j]
  }

  // ----- sub-allocations

  /** SubAlloc.Equal as the source computes it: the receiver's index map is compared
      with itself, so index maps play no part. */
  predicate SubAllocEqual(s: SubAlloc, t: SubAlloc) {
    s.id == t.id && s.bals == t.bals
  }

  predicate SubAllocsEqual(a: seq<SubAlloc>, b: seq<SubAlloc>) {
    |a| == |b| && forall k :: 0 <= k < |a| ==> SubAllocEqual(a[k], b[k])
  }

  lemma {:induction false} EqualSubAllocsSameTotal(a: seq<SubAlloc>, b: seq<SubAlloc>, asset: nat)
    requires SubAllocsEqual(a, b)
    ensures LockedTotal(a, asset) == LockedTotal(b, asset)
  {
    if a != [] {
      EqualSubAllocsSameTotal(a[..|a| - 1], b[..|b| - 1], asset);
    }
  }

  function FindFrom(locked: seq<SubAlloc>, id: ID, from: nat): (k: Option<nat>)
    requires from <= |locked|
    ensures k.Some? ==> from <= k.value < |locked| && locked[k.value].id == id
    ensures k.Some? ==> forall i :: from <= i < k.value ==> locked[i].id != id
    ensures k.None? ==> forall i :: from <= i < |locked| ==> locked[i].id != id
    decreases |locked| - from
  {
    if from == |locked| then None
    else if locked[from].id == id then Some(from)
    else FindFrom(locked, id, from + 1)
  }

  /** Allocation.SubAlloc: the first sub-allocation with the given ID. */
  function FindSubAlloc(a: Allocation, id: ID): (s: Option<SubAlloc>)
    ensures s.None? <==> forall k :: 0 <= k < |a.locked| ==> a.locked[k].id != id
    ensures s.Some? ==> s.value.id == id && s.value in a.locked
  {
    match FindFrom(a.locked, id, 0)
    case None => None
    case Some(k) => Some(a.locked[k])
  }

  predicate LockedOnce(a: Allocation, id: ID) {
    (exists k :: 0 <= k < |a.locked| && a.locked[k].id == id) &&
    (forall i, j :: 0 <= i < |a.locked| && 0 <= j < |a.locked| && a.locked[i].id == id && a.locked[j].id == id ==> i == j)
  }

  predicate DistinctIDs(locked: seq<SubAlloc>) {
    forall i, j :: 0 <= i < j < |locked| ==> locked[i].id != locked[j].id
  }

  /** copy(b[i:], b[i+1:]) followed by dropping the last place. */
  method ShiftDown<T>(s: seq<T>, i: nat) returns (r: seq<T>)
    requires i < |s|
    ensures r == s[..i] + s[i + 1..]
  {
    r := s;
    var j := i;
    while j + 1 < |s|
      invariant i <= j < |r| && |r| == |s|
      invariant r[..i] == s[..i]
      invariant forall x :: i <= x < j ==> r[x] == s[x + 1]
      invariant forall x :: j <= x < |s| ==> r[x] == s[x]
    {
      assert r[j + 1] == s[j + 1];
      r := r[j := r[j + 1]];
      j := j + 1;
    }
    assert s[i + 1..] == r[i..|s| - 1];
    r := r[..|s| - 1];
  }

  /** An allocation held by a state under construction, with the updates the source makes in place. */
  class AllocationCell {
    var assets: seq<Asset>
    var balances: Balances
    var locked: seq<SubAlloc>

    constructor (a: Allocation)
      ensures Value() == a
    {
      assets, balances, locked := a.assets, a.balances, a.locked;
    }

    function Value(): Allocation
      reads this
    {
      Allocation(assets, balances, locked)
    }

    method AddSubAlloc(s: SubAlloc)
      modifies this`locked
      ensures locked == old(locked) + [s]
    {
      locked := locked + [s];
    }

    /** Drops the first entry equal to s and keeps the order of the rest. */
    method RemoveSubAlloc(s: SubAlloc) returns (found: bool)
      modifies this`locked
      ensures found <==> exists k :: 0 <= k < |old(locked)| && SubAllocEqual(s, old(locked)[k])
      ensures !found ==> locked == old(locked)
      ensures found ==> exists k :: 0 <= k < |old(locked)| && SubAllocEqual(s, old(locked)[k]) &&
                                    (forall i :: 0 <= i < k ==> !SubAllocEqual(s, old(locked)[i])) &&
                                    locked == old(locked)[..k] + old(locked)[k + 1..]
    {
      for i := 0 to |locked|
        invariant locked == old(locked)
        invariant forall k :: 0 <= k < i ==> !SubAllocEqual(s, old(locked)[k])
      {
        if SubAllocEqual(s, locked[i]) {
          locked := ShiftDown(locked, i);
          return true;
        }
      }
      found := false;
    }
  }

  /** RemoveSubAlloc of the entry that SubAlloc found: exactly that entry goes, the others keep their order. */
  method RemoveByID(cell: AllocationCell, id: ID) returns (s: Option<SubAlloc>)
    modifies cell`locked
    ensures s == FindSubAlloc(old(cell.Value()), id)
    ensures s.None? ==> cell.locked == old(cell.locked)
    ensures s.Some? ==>
              var k := FindFrom(old(cell.locked), id, 0).value;
              s.value == old(cell.locked)[k] && cell.locked == old(cell.locked)[..k] + old(cell.locked)[k + 1..]
  {
    s := FindSubAlloc(cell.Value(), id);
    if s.Some? {
      ghost var was := cell.locked;
      ghost var k := FindFrom(was, id, 0).value;
      assert SubAllocEqual(s.value, was[k]);
      var found := cell.RemoveSubAlloc(s.value);
      assert forall i :: 0 <= i < k ==> was[i].id != id;
    }
  }

  /** What removing an entry does to an allocation as a value. */
  function WithoutEntry(a: Allocation, k: nat): Allocation
    requires k < |a.locked|
  {
    a.(locked := a.locked[..k] + a.locked[k + 1..])
  }

  lemma RemovedIsAbsent(a: Allocation, id: ID, k: nat)
    requires k < |a.locked| && a.locked[k].id == id && LockedOnce(a, id)
    ensures FindSubAlloc(WithoutEntry(a, k), id) == None
  {
    var rest := WithoutEntry(a, k).locked;
    forall i | 0 <= i < |rest|
      ensures rest[i].id != id
    {
      assert rest[i] == if i < k then a.locked[i] else a.locked[i + 1];
    }
  }
}

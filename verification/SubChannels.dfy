/** Funding a sub-channel from its parent and withdrawing it again (client/subchannel.go). */
module SubChannels {
  import opened Base
  import opened Sums
  import opened Allocations
  import opened States

  function NextVersion(s: State): nat {
    (s.version + 1) % UINT64_SIZE
  }

  /** The asset and funds checks of validSubChannelProposal; proposals carry no locked funds. */
  predicate ValidSubChannelProposal(parent: State, init: Allocation) {
    && parent.alloc.assets == init.assets
    && GreaterOrEqual(parent.alloc.balances, init.balances)
    && init.locked == []
  }

  // ----- funding

  /** The parent state that fundSubChannel proposes. */
  function FundState(parent: State, id: ID, init: Allocation): (r: State)
    requires SameDims(init.balances, parent.alloc.balances)
  {
    parent.(version := NextVersion(parent),
            alloc := parent.alloc.(balances := SubBalances(parent.alloc.balances, init.balances),
                                   locked := parent.alloc.locked + [SubAlloc(id, SumBalances(init.balances), [])]))
  }

  method FundSubChannel(parent: State, id: ID, init: Allocation) returns (r: Option<State>)
    ensures r == if SameDims(init.balances, parent.alloc.balances) then Some(FundState(parent, id, init)) else None
  {
    var cell := new AllocationCell(parent.alloc);
    var left := Sub(cell.balances, init.balances);
    if left.None? {
      return None;
    }
    cell.balances := left.value;
    var sums := SumBalancesLoop(init.balances);
    cell.AddSubAlloc(SubAlloc(id, sums, []));
    r := Some(parent.(version := NextVersion(parent), alloc := cell.Value()));
  }

  lemma LockingKeepsTotals(a: Allocation, taken: Balances, s: SubAlloc)
    requires SameDims(taken, a.balances) && s.bals == SumBalances(taken)
    ensures SumAlloc(a.(balances := SubBalances(a.balances, taken), locked := a.locked + [s])) == SumAlloc(a)
  {
    var b := a.(balances := SubBalances(a.balances, taken), locked := a.locked + [s]);
    forall i | 0 <= i < |a.balances|
      ensures SumAlloc(b)[i] == SumAlloc(a)[i]
    {
      OperateTotals(a.balances, taken, i);
      LockedTotalSnoc(a.locked, s, i);
    }
  }

  lemma NonNegativeSums(b: Balances)
    requires forall i :: 0 <= i < |b| ==> ValidRow(b[i], |b[i]|)
    ensures forall i :: 0 <= i < |b| ==> SumBalances(b)[i] >= 0
  {
    forall i | 0 <= i < |b|
      ensures SumBalances(b)[i] >= 0
    {
      SumZeros(Zeros(|b[i]|));
      SumMonotone(Zeros(|b[i]|), b[i]);
    }
  }

  /** Taking funds that are there out of valid balances and locking their sums keeps an allocation valid. */
  lemma LockingKeepsValid(a: Allocation, taken: Balances, s: SubAlloc)
    requires ValidAlloc(a) && GreaterOrEqual(a.balances, taken) && |a.locked| < MAX_NUM_SUB_ALLOCATIONS
    requires s.bals == SumBalances(taken)
    requires forall i :: 0 <= i < |taken| ==> ValidRow(taken[i], |taken[i]|)
    ensures ValidAlloc(a.(balances := SubBalances(a.balances, taken), locked := a.locked + [s]))
  {
    NonNegativeSums(taken);
    var b := a.(balances := SubBalances(a.balances, taken), locked := a.locked + [s]);
    forall i | 0 <= i < |b.balances|
      ensures ValidRow(b.balances[i], |b.balances[0]|)
    {
      assert b.balances[i] == SubRow(a.balances[i], taken[i]);
      assert ValidRow(a.balances[i], |a.balances[0]|);
    }
  }

  /** The funding update of a checked proposal is a valid transition of every open parent with room for
      one more entry, for any application-independent check. */
  lemma FundingIsValidTransition(params: Params, parent: State, id: ID, init: Allocation)
    requires parent.id == params.id && parent.app == params.app && ValidAlloc(parent.alloc)
    requires ValidAlloc(init) && ValidSubChannelProposal(parent, init)
    ensures ValidTransition(params, parent, FundState(parent, id, init)) <==>
              !parent.isFinal && |parent.alloc.locked| < MAX_NUM_SUB_ALLOCATIONS
  {
    var s := SubAlloc(id, SumBalances(init.balances), []);
    LockingKeepsTotals(parent.alloc, init.balances, s);
    if |parent.alloc.locked| < MAX_NUM_SUB_ALLOCATIONS {
      LockingKeepsValid(parent.alloc, init.balances, s);
    } else {
      assert |FundState(parent, id, init).alloc.locked| > MAX_NUM_SUB_ALLOCATIONS;
    }
  }

  /** The filter of registerSubChannelFunding. */
  predicate FundingFilter(current: State, id: ID, bals: seq<Bal>, next: State) {
    var after := FindSubAlloc(next.alloc, id);
    FindSubAlloc(current.alloc, id).None? && after.Some? && SubAllocEqual(SubAlloc(id, bals, []), after.value)
  }

  /** The peer's filter catches the proposer's funding update exactly when the ID is not locked yet. */
  lemma FundingPassesFilter(parent: State, id: ID, init: Allocation)
    requires SameDims(init.balances, parent.alloc.balances) && init.locked == []
    ensures FundingFilter(parent, id, SumAlloc(init), FundState(parent, id, init)) <==>
              FindSubAlloc(parent.alloc, id).None?
  {
    var next := FundState(parent, id, init);
    var s := SubAlloc(id, SumBalances(init.balances), []);
    assert SumAlloc(init) == SumBalances(init.balances);
    if FindSubAlloc(parent.alloc, id).None? {
      assert next.alloc.locked[|parent.alloc.locked|] == s;
      var k := FindFrom(next.alloc.locked, id, 0).value;
      assert k == |parent.alloc.locked|;
    }
  }

  // ----- withdrawal

  /** The source indexes the parent's balances with the sub-channel's dimensions. */
  predicate Fits(sub: Balances, parent: Balances) {
    |sub| <= |parent| && forall a :: 0 <= a < |sub| ==> |sub[a]| <= |parent[a]|
  }

  /** The parent state that withdrawSubChannel proposes, with the k-th entry released. */
  function WithdrawState(parent: State, sub: State, k: nat): (r: State)
    requires SameDims(sub.alloc.balances, parent.alloc.balances) && k < |parent.alloc.locked|
  {
    parent.(version := NextVersion(parent),
            alloc := WithoutEntry(parent.alloc, k).(balances := AddBalances(parent.alloc.balances, sub.alloc.balances)))
  }

  /** The balances of the sub-channel added at their places; the others stay. */
  function AddInto(parent: Balances, sub: Balances): (r: Balances)
    ensures SameDims(r, parent)
    ensures forall a, u :: 0 <= a < |parent| && 0 <= u < |parent[a]| ==>
              r[a][u] == parent[a][u] + if a < |sub| && u < |sub[a]| then sub[a][u] else 0
    ensures SameDims(sub, parent) ==> r == AddBalances(parent, sub)
  {
    var r := seq(|parent|, a requires 0 <= a < |parent| =>
      seq(|parent[a]|, u requires 0 <= u < |parent[a]| =>
        parent[a][u] + if a < |sub| && u < |sub[a]| then sub[a][u] else 0));
    assert SameDims(sub, parent) ==> forall a :: 0 <= a < |r| ==> r[a] == AddRow(parent[a], sub[a]);
    r
  }

  /** The funds of the k-th entry go back to the participants. */
  method AddIntoParent(parent: Balances, sub: Balances) returns (r: Balances)
    requires Fits(sub, parent)
    ensures r == AddInto(parent, sub)
  {
    r := parent;
    for a := 0 to |sub|
      invariant SameDims(r, parent)
      invariant forall x, u :: 0 <= x < a && 0 <= u < |parent[x]| ==> r[x][u] == AddInto(parent, sub)[x][u]
      invariant forall x :: a <= x < |parent| ==> r[x] == parent[x]
    {
      for u := 0 to |sub[a]|
        invariant SameDims(r, parent)
        invariant forall x, v :: 0 <= x < a && 0 <= v < |parent[x]| ==> r[x][v] == AddInto(parent, sub)[x][v]
        invariant forall v :: 0 <= v < u ==> r[a][v] == parent[a][v] + sub[a][v]
        invariant forall v :: u <= v < |parent[a]| ==> r[a][v] == parent[a][v]
        invariant forall x :: a < x < |parent| ==> r[x] == parent[x]
      {
        r := r[a := r[a][u := r[a][u] + sub[a][u]]];
      }
    }
    assert forall x :: 0 <= x < |r| ==> r[x] == AddInto(parent, sub)[x];
  }

  /** When none of withdrawSubChannel's panics is hit. */
  predicate Withdrawable(parent: State, sub: State) {
    var entry := FindSubAlloc(parent.alloc, sub.id);
    && entry.Some?
    && entry.value.bals == SumAlloc(sub.alloc)
    && Fits(sub.alloc.balances, parent.alloc.balances)
  }

  /** withdrawSubChannel's update of the cloned parent state; None where the source panics. */
  method WithdrawSubChannel(parent: State, sub: State) returns (r: Option<State>)
    requires ValidAlloc(sub.alloc)
    ensures r.Some? <==> Withdrawable(parent, sub)
    ensures r.Some? ==>
              var k := FindFrom(parent.alloc.locked, sub.id, 0).value;
              var released := WithoutEntry(parent.alloc, k).(balances := AddInto(parent.alloc.balances, sub.alloc.balances));
              && r.value == parent.(version := NextVersion(parent), alloc := released)
              && (SameDims(sub.alloc.balances, parent.alloc.balances) ==> r.value == WithdrawState(parent, sub, k))
  {
    var cell := new AllocationCell(parent.alloc);
    var entry := FindSubAlloc(parent.alloc, sub.id);
    if entry.None? {
      return None;
    }
    var total := SumAllocLoop(sub.alloc);
    if entry.value.bals != total || !Fits(sub.alloc.balances, parent.alloc.balances) {
      return None;
    }
    cell.balances := AddIntoParent(cell.balances, sub.alloc.balances);
    var removed := RemoveByID(cell, sub.id);
    r := Some(parent.(version := NextVersion(parent), alloc := cell.Value()));
  }

  lemma ReleasingKeepsTotals(a: Allocation, k: nat, given: Balances)
    requires k < |a.locked| && SameDims(given, a.balances) && a.locked[k].bals == SumBalances(given)
    ensures SumAlloc(WithoutEntry(a, k).(balances := AddBalances(a.balances, given))) == SumAlloc(a)
  {
    var b := WithoutEntry(a, k).(balances := AddBalances(a.balances, given));
    forall i | 0 <= i < |a.balances|
      ensures SumAlloc(b)[i] == SumAlloc(a)[i]
    {
      OperateTotals(a.balances, given, i);
      LockedTotalRemove(a.locked, k, i);
    }
  }

  lemma ReleasingKeepsValid(a: Allocation, k: nat, given: Balances)
    requires ValidAlloc(a) && k < |a.locked| && SameDims(given, a.balances)
    requires forall i :: 0 <= i < |given| ==> ValidRow(given[i], |given[i]|)
    ensures ValidAlloc(WithoutEntry(a, k).(balances := AddBalances(a.balances, given)))
  {
    var b := WithoutEntry(a, k).(balances := AddBalances(a.balances, given));
    forall i | 0 <= i < |b.balances|
      ensures ValidRow(b.balances[i], |b.balances[0]|)
    {
      assert b.balances[i] == AddRow(a.balances[i], given[i]);
      assert ValidRow(a.balances[i], |a.balances[0]|);
    }
    forall j | 0 <= j < |b.locked|
      ensures ValidSubAlloc(b.locked[j]) && |b.locked[j].bals| == |b.assets|
    {
      assert b.locked[j] == if j < k then a.locked[j] else a.locked[j + 1];
    }
  }

  lemma NothingLockedSum(a: Allocation)
    requires a.locked == []
    ensures SumAlloc(a) == SumBalances(a.balances)
  {
  }

  /** Releasing a settled sub-channel is a valid transition of every open parent. */
  lemma WithdrawalIsValidTransition(params: Params, parent: State, sub: State, k: nat)
    requires parent.id == params.id && parent.app == params.app && ValidAlloc(parent.alloc) && !parent.isFinal
    requires ValidAlloc(sub.alloc) && sub.alloc.locked == [] && SameDims(sub.alloc.balances, parent.alloc.balances)
    requires k < |parent.alloc.locked| && parent.alloc.locked[k].bals == SumAlloc(sub.alloc)
    ensures ValidTransition(params, parent, WithdrawState(parent, sub, k))
  {
    NothingLockedSum(sub.alloc);
    ReleasingKeepsTotals(parent.alloc, k, sub.alloc.balances);
    ReleasingKeepsValid(parent.alloc, k, sub.alloc.balances);
  }

  /** The filter of registerSubChannelSettlement. */
  predicate SettlementFilter(current: State, id: ID, bals: Balances, next: State) {
    && FindSubAlloc(current.alloc, id).Some?
    && FindSubAlloc(next.alloc, id).None?
    && SameDims(bals, current.alloc.balances)
    && AddBalances(current.alloc.balances, bals) == next.alloc.balances
  }

  /** The peer, having registered the final balances, catches the proposer's withdrawal exactly when the
      sub-channel was locked once. */
  lemma WithdrawalPassesFilter(parent: State, sub: State)
    requires Withdrawable(parent, sub) && SameDims(sub.alloc.balances, parent.alloc.balances)
    ensures var k := FindFrom(parent.alloc.locked, sub.id, 0).value;
            SettlementFilter(parent, sub.id, sub.alloc.balances, WithdrawState(parent, sub, k)) <==>
              LockedOnce(parent.alloc, sub.id)
  {
    var k := FindFrom(parent.alloc.locked, sub.id, 0).value;
    var next := WithdrawState(parent, sub, k);
    if LockedOnce(parent.alloc, sub.id) {
      RemovedIsAbsent(parent.alloc, sub.id, k);
      assert next.alloc.locked == WithoutEntry(parent.alloc, k).locked;
    } else {
      var i, j :| 0 <= i < |parent.alloc.locked| && 0 <= j < |parent.alloc.locked| &&
                  parent.alloc.locked[i].id == sub.id && parent.alloc.locked[j].id == sub.id && i != j;
      var other := if i == k then j else i;
      assert next.alloc.locked[other - 1] == parent.alloc.locked[other];
    }
  }
}

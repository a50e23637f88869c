/** Virtual channels: index maps, funding, settlement and what they mean for the hub
    (client/virtual_channel.go, client/virtual_channel_settlement.go, client/virtual_channel_util.go). */
module VirtualChannels {
  import opened Base
  import opened Sums
  import opened Allocations
  import opened States
  import opened SubChannels

  // ----- index maps

  /** Every row has an entry for every mapped participant. */
  predicate Covers(b: Balances, m: seq<Index>) {
    forall a :: 0 <= a < |b| ==> |m| <= |b[a]|
  }

  /** Row by row, the entries of b at the places of numParts participants that the map names. */
  function Transform(b: Balances, numParts: nat, m: seq<Index>): (r: Balances)
    requires Covers(b, m) && InRange(m, numParts)
    ensures |r| == |b| && forall a :: 0 <= a < |r| ==> |r[a]| == numParts
  {
    seq(|b|, a requires 0 <= a < |b| => Scatter(b[a], numParts, m, |m|))
  }

  /** transformBalances; None where the source indexes out of range. */
  method TransformBalances(b: Balances, numParts: nat, m: seq<Index>) returns (r: Option<Balances>)
    ensures r == if b == [] then Some([])
                 else if Covers(b, m) && InRange(m, numParts) then Some(Transform(b, numParts, m)) else None
  {
    var t: Balances := [];
    for a := 0 to |b|
      invariant |t| == a
      invariant a > 0 ==> InRange(m, numParts)
      invariant forall x :: 0 <= x < a ==> |m| <= |b[x]| && t[x] == Scatter(b[x], numParts, m, |m|)
    {
      var row := Zeros(numParts);
      for p := 0 to |m|
        invariant p <= |b[a]|
        invariant forall x :: 0 <= x < p ==> m[x] < numParts
        invariant row == Scatter(b[a], numParts, m[..p], p)
      {
        if m[p] >= numParts || p >= |b[a]| {
          return None;
        }
        ScatterPrefix(b[a], numParts, m[..p + 1], m[..p], p);
        row := row[m[p] := b[a][p]];
      }
      assert m[..|m|] == m;
      t := t + [row];
    }
    assert b != [] ==> t == Transform(b, numParts, m);
    r := Some(t);
  }

  lemma {:induction false} ScatterPrefix(b: seq<int>, n: nat, m: seq<nat>, m': seq<nat>, k: nat)
    requires k <= |m| && k <= |m'| && k <= |b| && InRange(m, n) && InRange(m', n) && m[..k] == m'[..k]
    ensures Scatter(b, n, m, k) == Scatter(b, n, m', k)
  {
    if k > 0 {
      assert m[k - 1] == m[..k][k - 1] == m'[..k][k - 1] == m'[k - 1];
      assert m[..k - 1] == m[..k][..k - 1] == m'[..k][..k - 1] == m'[..k - 1];
      ScatterPrefix(b, n, m, m', k - 1);
    }
  }

  /** The map covers exactly the participants of b. */
  predicate Exact(b: Balances, m: seq<Index>) {
    forall a :: 0 <= a < |b| ==> |b[a]| == |m|
  }

  /** A map transfers every asset's funds without loss exactly if no two participants share a target. */
  lemma TransferExactness(m: seq<Index>, numParts: nat)
    requires InRange(m, numParts)
    ensures Injective(m) <==>
              forall b: Balances :: Exact(b, m) ==> SumBalances(Transform(b, numParts, m)) == SumBalances(b)
  {
    if Injective(m) {
      forall b: Balances | Exact(b, m)
        ensures SumBalances(Transform(b, numParts, m)) == SumBalances(b)
      {
        TransferKeepsTotals(b, numParts, m);
      }
    } else {
      var p, q :| 0 <= p < q < |m| && m[p] == m[q];
      var row := Zeros(|m|)[p := 1];
      ScatterLoses(row, numParts, m, p, |m|);
      SumZeros(Zeros(|m|));
      SumUpdate(Zeros(|m|), p, 1);
      assert SumBalances(Transform([row], numParts, m))[0] != SumBalances([row])[0];
      assert Exact([row], m);
    }
  }

  lemma TransferKeepsTotals(b: Balances, numParts: nat, m: seq<Index>)
    requires Exact(b, m) && InRange(m, numParts) && Injective(m)
    ensures SumBalances(Transform(b, numParts, m)) == SumBalances(b)
  {
    var t := Transform(b, numParts, m);
    forall a | 0 <= a < |b|
      ensures SumBalances(t)[a] == SumBalances(b)[a]
    {
      ScatterSum(b[a], numParts, m, |m|);
      assert b[a][..|m|] == b[a];
    }
  }

  lemma TransformValidRows(b: Balances, numParts: nat, m: seq<Index>)
    requires Covers(b, m) && InRange(m, numParts)
    requires forall a :: 0 <= a < |b| ==> ValidRow(b[a], |b[a]|)
    ensures forall a :: 0 <= a < |b| ==> ValidRow(Transform(b, numParts, m)[a], numParts)
  {
    forall a | 0 <= a < |b|
      ensures ValidRow(Transform(b, numParts, m)[a], numParts)
    {
      ScatterNonNegative(b[a], numParts, m, |m|);
    }
  }

  // ----- funding

  datatype FundingProposal = FundingProposal(next: State, initial: SignedState, indexMap: seq<Index>)

  /** The parent state that proposeVirtualChannelFunding builds. */
  function VirtualFundState(parent: State, id: ID, mapped: Balances, m: seq<Index>): State
    requires SameDims(mapped, parent.alloc.balances)
  {
    parent.(version := NextVersion(parent),
            alloc := parent.alloc.(balances := SubBalances(parent.alloc.balances, mapped),
                                   locked := parent.alloc.locked + [SubAlloc(id, SumBalances(mapped), m)]))
  }

  /** The balances are mapped to as many participants as the virtual channel has. */
  method ProposeFunding(parent: State, virtual: SignedState, m: seq<Index>) returns (r: Option<FundingProposal>)
    requires ValidAlloc(virtual.state.alloc)
    ensures var n := NumParts(virtual.state.alloc);
            r.Some? <==> Covers(virtual.state.alloc.balances, m) && InRange(m, n) &&
                         SameDims(Transform(virtual.state.alloc.balances, n, m), parent.alloc.balances)
    ensures r.Some? ==>
              var mapped := Transform(virtual.state.alloc.balances, NumParts(virtual.state.alloc), m);
              r.value == FundingProposal(VirtualFundState(parent, virtual.state.id, mapped, m), virtual, m)
  {
    var mapped := TransformBalances(virtual.state.alloc.balances, NumParts(virtual.state.alloc), m);
    if mapped.None? {
      return None;
    }
    var cell := new AllocationCell(parent.alloc);
    var left := Sub(cell.balances, mapped.value);
    if left.None? {
      return None;
    }
    cell.balances := left.value;
    var sums := SumBalancesLoop(mapped.value);
    cell.AddSubAlloc(SubAlloc(virtual.state.id, sums, m));
    r := Some(FundingProposal(parent.(version := NextVersion(parent), alloc := cell.Value()), virtual, m));
  }

  /** For an injective map that covers the virtual participants, taking their mapped balances out of a
      parent that has them is a valid transition exactly for an open parent with room for one more entry. */
  lemma VirtualFundingIsValidTransition(params: Params, parent: State, virtual: State, m: seq<Index>)
    requires parent.id == params.id && parent.app == params.app && ValidAlloc(parent.alloc)
    requires ValidAlloc(virtual.alloc) && Exact(virtual.alloc.balances, m)
    requires InRange(m, NumParts(parent.alloc)) && Injective(m)
    requires GreaterOrEqual(parent.alloc.balances, Transform(virtual.alloc.balances, NumParts(parent.alloc), m))
    ensures var mapped := Transform(virtual.alloc.balances, NumParts(parent.alloc), m);
            && SumBalances(mapped) == SumBalances(virtual.alloc.balances)
            && (ValidTransition(params, parent, VirtualFundState(parent, virtual.id, mapped, m)) <==>
                  !parent.isFinal && |parent.alloc.locked| < MAX_NUM_SUB_ALLOCATIONS)
  {
    var mapped := Transform(virtual.alloc.balances, NumParts(parent.alloc), m);
    TransferKeepsTotals(virtual.alloc.balances, NumParts(parent.alloc), m);
    TransformValidRows(virtual.alloc.balances, NumParts(parent.alloc), m);
    var s := SubAlloc(virtual.id, SumBalances(mapped), m);
    LockingKeepsTotals(parent.alloc, mapped, s);
    if |parent.alloc.locked| < MAX_NUM_SUB_ALLOCATIONS {
      LockingKeepsValid(parent.alloc, mapped, s);
    } else {
      assert |VirtualFundState(parent, virtual.id, mapped, m).alloc.locked| > MAX_NUM_SUB_ALLOCATIONS;
    }
  }

  /** The loop over the signatures of a signed state; a missing signature does not verify. */
  predicate SignaturesVerify(env: Env, s: SignedState) {
    forall i :: 0 <= i < |s.sigs| ==>
      i < |s.params.parts| && s.sigs[i].Some? && env.verify(s.params.parts[i], s.state, s.sigs[i].value)
  }

  /** validateVirtualChannelFundingProposal by the hub, whose parent channel is in the given state. */
  predicate ValidFundingProposal(env: Env, parent: State, prop: FundingProposal) {
    var initial := prop.initial.state;
    var id := prop.initial.params.id;
    && id == initial.id
    && prop.initial.params.virtual
    && initial.alloc.locked == []
    && SignaturesVerify(env, prop.initial)
    && |prop.initial.params.parts| == |prop.indexMap|
    && FindSubAlloc(parent.alloc, id).None?
    && var after := FindSubAlloc(prop.next.alloc, id);
       && after.Some?
       && SubAllocEqual(after.value, SubAlloc(id, SumAlloc(initial.alloc), prop.indexMap))
       && parent.alloc.assets == initial.alloc.assets
       && parent.alloc.balances != []
       && Covers(initial.alloc.balances, after.value.indexMap)
       && InRange(after.value.indexMap, |parent.alloc.balances[0]|)
       && GreaterOrEqual(parent.alloc.balances,
                         Transform(initial.alloc.balances, |parent.alloc.balances[0]|, after.value.indexMap))
  }

  /** What a participant knows of the virtual channel and its parent when it proposes the funding. */
  predicate FundableBy(env: Env, parent: State, virtual: SignedState, m: seq<Index>) {
    && ValidAlloc(virtual.state.alloc) && virtual.state.alloc.locked == []
    && virtual.params.id == virtual.state.id && virtual.params.virtual
    && |virtual.params.parts| == NumParts(virtual.state.alloc) == |m|
    && SignaturesVerify(env, virtual)
    && ValidAlloc(parent.alloc) && parent.alloc.assets == virtual.state.alloc.assets
    && NumParts(parent.alloc) == NumParts(virtual.state.alloc)
    && InRange(m, NumParts(parent.alloc)) && Injective(m)
    && GreaterOrEqual(parent.alloc.balances, Transform(virtual.state.alloc.balances, NumParts(parent.alloc), m))
  }

  /** What the hub asks of a proposal that was built from a virtual channel, a map and its own view of the parent. */
  predicate FundingAskedFor(env: Env, parent: State, virtual: SignedState, m: seq<Index>, mapped: Balances)
    requires |mapped| == |virtual.state.alloc.balances| && SameDims(mapped, parent.alloc.balances)
  {
    && virtual.params.id == virtual.state.id && virtual.params.virtual && virtual.state.alloc.locked == []
    && SignaturesVerify(env, virtual)
    && |m| == |virtual.params.parts|
    && (forall k :: 0 <= k < |parent.alloc.locked| ==> parent.alloc.locked[k].id != virtual.state.id)
    && (forall a :: 0 <= a < |mapped| ==> Sum(mapped[a]) == Sum(virtual.state.alloc.balances[a]))
    && parent.alloc.assets == virtual.state.alloc.assets
    && (forall a, u :: 0 <= a < |mapped| && 0 <= u < |mapped[a]| ==> mapped[a][u] <= parent.alloc.balances[a][u])
  }

  /** The hub accepts exactly the built proposals of virtual channels that lock nothing, verify wherever they are signed, are not
      locked yet, lose nothing under the map and are covered by the parent's balances. */
  lemma BuiltFundingAcceptedIff(env: Env, parent: State, virtual: SignedState, m: seq<Index>)
    requires ValidAlloc(parent.alloc) && ValidAlloc(virtual.state.alloc)
    requires var n := NumParts(parent.alloc);
             Covers(virtual.state.alloc.balances, m) && InRange(m, n) && SameDims(Transform(virtual.state.alloc.balances, n, m), parent.alloc.balances)
    ensures var mapped := Transform(virtual.state.alloc.balances, NumParts(parent.alloc), m);
            ValidFundingProposal(env, parent, FundingProposal(VirtualFundState(parent, virtual.state.id, mapped, m), virtual, m)) <==>
              FundingAskedFor(env, parent, virtual, m, mapped)
  {
    var mapped := Transform(virtual.state.alloc.balances, NumParts(parent.alloc), m);
    var next := VirtualFundState(parent, virtual.state.id, mapped, m);
    if FindSubAlloc(parent.alloc, virtual.state.id).None? {
      var n := |parent.alloc.locked|;
      assert next.alloc.locked[n].id == virtual.state.id;
      assert FindFrom(next.alloc.locked, virtual.state.id, 0) == Some(n);
      assert FindSubAlloc(next.alloc, virtual.state.id) == Some(SubAlloc(virtual.state.id, SumBalances(mapped), m));
    }
    if virtual.state.alloc.locked == [] {
      NothingLockedSum(virtual.state.alloc);
    }
    SameSums(mapped, virtual.state.alloc.balances);
    assert GreaterOrEqual(parent.alloc.balances, mapped) <==>
           forall a, u :: 0 <= a < |mapped| && 0 <= u < |mapped[a]| ==> mapped[a][u] <= parent.alloc.balances[a][u];
  }

  lemma SameSums(a: Balances, b: Balances)
    requires |a| == |b|
    ensures SumBalances(a) == SumBalances(b) <==> forall i :: 0 <= i < |a| ==> Sum(a[i]) == Sum(b[i])
  {
    if SumBalances(a) == SumBalances(b) {
      forall i | 0 <= i < |a|
        ensures Sum(a[i]) == Sum(b[i])
      {
        assert SumBalances(a)[i] == SumBalances(b)[i];
      }
    }
  }

  /** The hub accepts an honestly built proposal exactly if the virtual channel is not locked yet. */
  lemma HonestFundingAccepted(env: Env, parent: State, virtual: SignedState, m: seq<Index>)
    requires FundableBy(env, parent, virtual, m)
    ensures var mapped := Transform(virtual.state.alloc.balances, NumParts(parent.alloc), m);
            ValidFundingProposal(env, parent, FundingProposal(VirtualFundState(parent, virtual.state.id, mapped, m), virtual, m))
            <==> FindSubAlloc(parent.alloc, virtual.state.id).None?
  {
    var mapped := Transform(virtual.state.alloc.balances, NumParts(parent.alloc), m);
    TransferKeepsTotals(virtual.state.alloc.balances, NumParts(parent.alloc), m);
    SameSums(mapped, virtual.state.alloc.balances);
    BuiltFundingAcceptedIff(env, parent, virtual, m);
    assert FindSubAlloc(parent.alloc, virtual.state.id).None? ==> FundingAskedFor(env, parent, virtual, m, mapped);
  }

  /** Participant j of the virtual channel is played by the hub in one of the first n parents. */
  predicate PlayedByHub(maps: seq<seq<Index>>, hubs: seq<Index>, n: nat, j: nat)
    requires n <= |maps| == |hubs|
  {
    exists i :: 0 <= i < n && j < |maps[i]| && maps[i][j] == hubs[i]
  }

  /** Every virtual participant is played by the hub in one of the two parents. */
  predicate HubCovers(m0: seq<Index>, h0: Index, m1: seq<Index>, h1: Index) {
    |m0| == |m1| && forall j :: 0 <= j < |m0| ==> m0[j] == h0 || m1[j] == h1
  }

  /** A later map names the hub behind the end of the first map, where the source has no place for it. */
  ghost predicate Overruns(maps: seq<seq<Index>>, hubs: seq<Index>, n: nat)
    requires n <= |maps| == |hubs| && 0 < |maps|
  {
    exists j: nat :: |maps[0]| <= j && PlayedByHub(maps, hubs, n, j)
  }

  /** The index-map check of matchFundingProposal over the proposals of all parents; None where the source
      indexes out of range. */
  method CheckIndexMaps(maps: seq<seq<Index>>, hubs: seq<Index>) returns (ok: Option<bool>)
    requires 0 < |maps| == |hubs|
    ensures ok.None? <==> Overruns(maps, hubs, |maps|)
    ensures ok.Some? ==> (ok.value <==> forall j :: 0 <= j < |maps[0]| ==> PlayedByHub(maps, hubs, |maps|, j))
    ensures |maps| == 2 && |maps[0]| == |maps[1]| ==> ok == Some(HubCovers(maps[0], hubs[0], maps[1], hubs[1]))
  {
    var indices := new bool[|maps[0]|](_ => false);
    for i := 0 to |maps|
      invariant forall k :: 0 <= k < |maps[0]| ==> (indices[k] <==> PlayedByHub(maps, hubs, i, k))
      invariant !Overruns(maps, hubs, i)
    {
      for j := 0 to |maps[i]|
        invariant forall k :: 0 <= k < |maps[0]| ==>
                    (indices[k] <==> PlayedByHub(maps, hubs, if k < j then i + 1 else i, k))
        invariant forall k :: |maps[0]| <= k < j ==> maps[i][k] != hubs[i]
      {
        PlayedByNext(maps, hubs, i, j);
        if maps[i][j] == hubs[i] {
          if j >= |maps[0]| {
            PlayedByMore(maps, hubs, i + 1, j);
            return None;
          }
          indices[j] := true;
        }
      }
      NoOverrun(maps, hubs, i);
      forall k: nat
        ensures |maps[i]| <= k < |maps[0]| ==> (indices[k] <==> PlayedByHub(maps, hubs, i + 1, k))
      {
        PlayedByNext(maps, hubs, i, k);
      }
    }
    var all := true;
    for j := 0 to indices.Length
      invariant all <==> forall k :: 0 <= k < j ==> PlayedByHub(maps, hubs, |maps|, k)
    {
      all := all && indices[j];
    }
    if |maps| == 2 && |maps[0]| == |maps[1]| {
      forall j | 0 <= j < |maps[0]|
        ensures PlayedByHub(maps, hubs, 2, j) <==> maps[0][j] == hubs[0] || maps[1][j] == hubs[1]
      {
      }
    }
    ok := Some(all);
  }

  lemma PlayedByNext(maps: seq<seq<Index>>, hubs: seq<Index>, i: nat, j: nat)
    requires i < |maps| == |hubs|
    ensures PlayedByHub(maps, hubs, i + 1, j) == (PlayedByHub(maps, hubs, i, j) || (j < |maps[i]| && maps[i][j] == hubs[i]))
  {
  }

  lemma NoOverrun(maps: seq<seq<Index>>, hubs: seq<Index>, i: nat)
    requires i < |maps| == |hubs| && !Overruns(maps, hubs, i)
    requires forall k :: |maps[0]| <= k < |maps[i]| ==> maps[i][k] != hubs[i]
    ensures !Overruns(maps, hubs, i + 1)
  {
    var n := i + 1;
    forall k: nat | |maps[0]| <= k
      ensures !PlayedByHub(maps, hubs, n, k)
    {
      PlayedByNext(maps, hubs, i, k);
      assert PlayedByHub(maps, hubs, i, k) ==> Overruns(maps, hubs, i);
    }
  }

  lemma PlayedByMore(maps: seq<seq<Index>>, hubs: seq<Index>, n: nat, j: nat)
    requires n <= |maps| == |hubs| && PlayedByHub(maps, hubs, n, j)
    ensures PlayedByHub(maps, hubs, |maps|, j)
  {
  }

  // ----- settlement

  datatype SettlementProposal = SettlementProposal(next: State, final: SignedState)

  /** The parent state that withdrawVirtualChannel proposes, with the k-th entry released. */
  function VirtualWithdrawState(parent: State, mapped: Balances, k: nat): State
    requires SameDims(mapped, parent.alloc.balances) && k < |parent.alloc.locked|
  {
    parent.(version := NextVersion(parent),
            alloc := WithoutEntry(parent.alloc, k).(balances := AddBalances(parent.alloc.balances, mapped)))
  }

  /** When none of withdrawVirtualChannel's panics is hit. */
  predicate VirtualWithdrawable(parent: State, virtual: State) {
    var entry := FindSubAlloc(parent.alloc, virtual.id);
    && entry.Some?
    && entry.value.bals == SumAlloc(virtual.alloc)
    && NumParts(virtual.alloc) >= 0
    && Covers(virtual.alloc.balances, entry.value.indexMap)
    && InRange(entry.value.indexMap, NumParts(virtual.alloc))
    && SameDims(Transform(virtual.alloc.balances, NumParts(virtual.alloc), entry.value.indexMap), parent.alloc.balances)
  }

  /** withdrawVirtualChannel up to sending; None where the source panics. */
  method WithdrawVirtualChannel(parent: State, virtual: SignedState) returns (r: Option<SettlementProposal>)
    requires ValidAlloc(virtual.state.alloc)
    ensures r.Some? <==> VirtualWithdrawable(parent, virtual.state)
    ensures r.Some? ==>
              var k := FindFrom(parent.alloc.locked, virtual.state.id, 0).value;
              var mapped := Transform(virtual.state.alloc.balances, NumParts(virtual.state.alloc), parent.alloc.locked[k].indexMap);
              r.value == SettlementProposal(VirtualWithdrawState(parent, mapped, k), virtual)
  {
    var entry := FindSubAlloc(parent.alloc, virtual.state.id);
    if entry.None? {
      return None;
    }
    var total := SumAllocLoop(virtual.state.alloc);
    if entry.value.bals != total {
      return None;
    }
    var mapped := TransformBalances(virtual.state.alloc.balances, NumParts(virtual.state.alloc), entry.value.indexMap);
    if mapped.None? {
      return None;
    }
    var cell := new AllocationCell(parent.alloc);
    var sum := Add(cell.balances, mapped.value);
    if sum.None? {
      return None;
    }
    cell.balances := sum.value;
    var removed := RemoveByID(cell, virtual.state.id);
    r := Some(SettlementProposal(parent.(version := NextVersion(parent), alloc := cell.Value()), virtual));
  }

  /** validateVirtualChannelSettlementProposal. */
  predicate ValidSettlementProposal(env: Env, parent: State, prop: SettlementProposal) {
    var final, id := prop.final.state, prop.final.params.id;
    && id == final.id
    && SignaturesVerify(env, prop.final)
    && parent.alloc.assets == final.alloc.assets
    && var entry := FindSubAlloc(parent.alloc, id);
       && entry.Some?
       && entry.value.bals == SumAlloc(final.alloc)
       && FindSubAlloc(prop.next.alloc, id).None?
       && parent.alloc.balances != []
       && Covers(final.alloc.balances, entry.value.indexMap)
       && InRange(entry.value.indexMap, |parent.alloc.balances[0]|)
       && var mapped := Transform(final.alloc.balances, |parent.alloc.balances[0]|, entry.value.indexMap);
          && SameDims(mapped, parent.alloc.balances)
          && AddBalances(parent.alloc.balances, mapped) == prop.next.alloc.balances
  }

  /** The settlement an honest participant builds from a fully signed final state passes the hub's
      validation exactly if the virtual channel was locked once. */
  lemma HonestSettlementAccepted(env: Env, parent: State, virtual: SignedState)
    requires ValidAlloc(parent.alloc) && ValidAlloc(virtual.state.alloc) && VirtualWithdrawable(parent, virtual.state)
    requires virtual.params.id == virtual.state.id && SignaturesVerify(env, virtual)
    requires parent.alloc.assets == virtual.state.alloc.assets
    ensures var k := FindFrom(parent.alloc.locked, virtual.state.id, 0).value;
            var mapped := Transform(virtual.state.alloc.balances, NumParts(virtual.state.alloc), parent.alloc.locked[k].indexMap);
            ValidSettlementProposal(env, parent, SettlementProposal(VirtualWithdrawState(parent, mapped, k), virtual))
            <==> LockedOnce(parent.alloc, virtual.state.id)
  {
    var id := virtual.state.id;
    var k := FindFrom(parent.alloc.locked, id, 0).value;
    var mapped := Transform(virtual.state.alloc.balances, NumParts(virtual.state.alloc), parent.alloc.locked[k].indexMap);
    var next := VirtualWithdrawState(parent, mapped, k);
    assert |mapped[0]| == |parent.alloc.balances[0]|;
    if LockedOnce(parent.alloc, id) {
      RemovedIsAbsent(parent.alloc, id, k);
      assert next.alloc.locked == WithoutEntry(parent.alloc, k).locked;
    } else {
      var i, j :| 0 <= i < |parent.alloc.locked| && 0 <= j < |parent.alloc.locked| &&
                  parent.alloc.locked[i].id == id && parent.alloc.locked[j].id == id && i != j;
      var other := if i == k then j else i;
      assert next.alloc.locked[other - 1] == parent.alloc.locked[other];
    }
  }

  /** The hub accepts the settlement that any participant builds exactly if the final state verifies wherever it is signed, it is
      a state of the channel, of the parent's assets, and the channel is locked once. */
  lemma BuiltSettlementAcceptedIff(env: Env, parent: State, virtual: SignedState)
    requires ValidAlloc(parent.alloc) && ValidAlloc(virtual.state.alloc) && VirtualWithdrawable(parent, virtual.state)
    ensures var k := FindFrom(parent.alloc.locked, virtual.state.id, 0).value;
            var mapped := Transform(virtual.state.alloc.balances, NumParts(virtual.state.alloc), parent.alloc.locked[k].indexMap);
            ValidSettlementProposal(env, parent, SettlementProposal(VirtualWithdrawState(parent, mapped, k), virtual)) <==>
              && virtual.params.id == virtual.state.id
              && SignaturesVerify(env, virtual)
              && parent.alloc.assets == virtual.state.alloc.assets
              && LockedOnce(parent.alloc, virtual.state.id)
  {
    if virtual.params.id == virtual.state.id && SignaturesVerify(env, virtual) && parent.alloc.assets == virtual.state.alloc.assets {
      HonestSettlementAccepted(env, parent, virtual);
    }
  }

  /** It is also a valid transition of every open parent, if the final state locks nothing and the
      entry's map is injective and covers its participants. */
  lemma SettlementIsValidTransition(params: Params, parent: State, virtual: State)
    requires parent.id == params.id && parent.app == params.app && ValidAlloc(parent.alloc) && !parent.isFinal
    requires ValidAlloc(virtual.alloc) && virtual.alloc.locked == [] && VirtualWithdrawable(parent, virtual)
    requires var m := FindSubAlloc(parent.alloc, virtual.id).value.indexMap;
             Injective(m) && Exact(virtual.alloc.balances, m)
    ensures var k := FindFrom(parent.alloc.locked, virtual.id, 0).value;
            var mapped := Transform(virtual.alloc.balances, NumParts(virtual.alloc), parent.alloc.locked[k].indexMap);
            ValidTransition(params, parent, VirtualWithdrawState(parent, mapped, k))
  {
    var k := FindFrom(parent.alloc.locked, virtual.id, 0).value;
    var m := parent.alloc.locked[k].indexMap;
    var mapped := Transform(virtual.alloc.balances, NumParts(virtual.alloc), m);
    TransferKeepsTotals(virtual.alloc.balances, NumParts(virtual.alloc), m);
    TransformValidRows(virtual.alloc.balances, NumParts(virtual.alloc), m);
    NothingLockedSum(virtual.alloc);
    ReleasingKeepsTotals(parent.alloc, k, mapped);
    ReleasingKeepsValid(parent.alloc, k, mapped);
  }

  // ----- the hub

  /** What reaches the hub's place in the two parents together. */
  function HubShare(row: seq<int>, n: nat, m0: seq<Index>, h0: Index, m1: seq<Index>, h1: Index): int
    requires |m0| <= |row| && |m1| <= |row| && InRange(m0, n) && InRange(m1, n) && h0 < n && h1 < n
  {
    Scatter(row, n, m0, |m0|)[h0] + Scatter(row, n, m1, |m1|)[h1]
  }

  /** The only place, if any, that an injective map sends to h. */
  ghost function OnlyPlace(m: seq<Index>, h: Index): (a: nat)
    requires Injective(m)
    ensures forall i: nat :: i < |m| && m[i] == h ==> i == a
  {
    if exists i: nat :: i < |m| && m[i] == h then var i: nat :| i < |m| && m[i] == h; i else 0
  }

  lemma CoveredPlace(m0: seq<Index>, h0: Index, m1: seq<Index>, h1: Index, a: nat, b: nat, i: nat)
    requires Injective(m0) && Injective(m1) && HubCovers(m0, h0, m1, h1)
    requires a == OnlyPlace(m0, h0) && b == OnlyPlace(m1, h1)
    ensures i < |m0| ==> i == a || i == b
  {
    assert i < |m0| ==> m0[i] == h0 || m1[i] == h1;
  }

  /** Injective maps reach the hub at most once each, so together they cover at most two participants. */
  lemma AtMostTwoParticipants(m0: seq<Index>, h0: Index, m1: seq<Index>, h1: Index)
    requires Injective(m0) && Injective(m1) && HubCovers(m0, h0, m1, h1)
    ensures |m0| <= 2
  {
    var a, b := OnlyPlace(m0, h0), OnlyPlace(m1, h1);
    CoveredPlace(m0, h0, m1, h1, a, b, 0);
    CoveredPlace(m0, h0, m1, h1, a, b, 1);
    CoveredPlace(m0, h0, m1, h1, a, b, 2);
  }

  lemma HubPlace(row: seq<int>, n: nat, m: seq<Index>, h: Index)
    requires InRange(m, n) && Injective(m) && h < n && |m| <= 2 && |row| == |m|
    ensures Scatter(row, n, m, |m|)[h] ==
            if |m| > 0 && m[0] == h then row[0] else if |m| > 1 && m[1] == h then row[1] else 0
  {
    ScatterAt(row, n, m, |m|);
    assert m[..|m|] == m;
  }

  /** The hub's places hold the total of the row as often as the maps say, whatever the row holds. */
  lemma HubShareIsTotal(row: seq<int>, n: nat, m0: seq<Index>, h0: Index, m1: seq<Index>, h1: Index)
    requires InRange(m0, n) && InRange(m1, n) && Injective(m0) && Injective(m1) && h0 < n && h1 < n
    requires HubCovers(m0, h0, m1, h1) && |row| == |m0|
    ensures HubShare(row, n, m0, h0, m1, h1) == if |m0| == 1 && m0[0] == h0 && m1[0] == h1 then 2 * Sum(row) else Sum(row)
  {
    AtMostTwoParticipants(m0, h0, m1, h1);
    HubPlace(row, n, m0, h0);
    HubPlace(row, n, m1, h1);
    SmallSum(row);
    if |m0| == 2 {
      assert m0[0] != m0[1] && m1[0] != m1[1];
    }
  }

  /** The change of one participant's balance between two states. */
  function Change(before: State, after: State, asset: nat, part: Index): int
    requires SameDims(after.alloc.balances, before.alloc.balances)
    requires asset < |before.alloc.balances| && part < |before.alloc.balances[asset]|
  {
    after.alloc.balances[asset][part] - before.alloc.balances[asset][part]
  }

  /** One parent's part of a virtual channel's life: funded from state before with an index map, settled from
      state open with the map that the entry has by then. */
  datatype Leg = Leg(before: State, open: State, indexMap: seq<Index>, hub: Index)

  predicate GoodMap(m: seq<Index>, n: nat) {
    InRange(m, n) && Injective(m)
  }

  /** Virtual channels have two participants: fewer are refused when parameters are validated, more do not pass the
      matching check. */
  predicate LegInv(leg: Leg, initial: State, final: State, n: nat, entry: nat) {
    && SameDims(leg.open.alloc.balances, leg.before.alloc.balances)
    && |leg.indexMap| == 2 && GoodMap(leg.indexMap, n) && leg.hub < n
    && Exact(initial.alloc.balances, leg.indexMap)
    && |initial.alloc.balances| == |final.alloc.balances| == |leg.before.alloc.balances|
    && SameDims(Transform(initial.alloc.balances, n, leg.indexMap), leg.before.alloc.balances)
    && entry < |leg.open.alloc.locked|
    && leg.open.alloc.locked[entry].id == initial.id && leg.open.alloc.locked[entry].bals == SumAlloc(initial.alloc)
    && |SettleMap(leg, entry)| == 2 && InRange(SettleMap(leg, entry), n) && Exact(final.alloc.balances, SettleMap(leg, entry))
  }

  /** The index map of the entry when the virtual channel is settled. */
  function SettleMap(leg: Leg, entry: nat): seq<Index>
    requires entry < |leg.open.alloc.locked|
  {
    leg.open.alloc.locked[entry].indexMap
  }

  function Funded(leg: Leg, initial: State, final: State, n: nat, entry: nat): State
    requires LegInv(leg, initial, final, n, entry)
  {
    VirtualFundState(leg.before, initial.id, Transform(initial.alloc.balances, n, leg.indexMap), leg.indexMap)
  }

  function Settled(leg: Leg, initial: State, final: State, n: nat, entry: nat): State
    requires LegInv(leg, initial, final, n, entry)
  {
    VirtualWithdrawState(leg.open, Transform(final.alloc.balances, n, SettleMap(leg, entry)), entry)
  }

  /** The hub's net change in one parent channel caused by funding and settling the virtual channel. */
  function HubNet(leg: Leg, initial: State, final: State, n: nat, entry: nat, asset: nat): int
    requires LegInv(leg, initial, final, n, entry) && asset < |initial.alloc.balances|
  {
    Change(leg.before, Funded(leg, initial, final, n, entry), asset, leg.hub) +
    Change(leg.open, Settled(leg, initial, final, n, entry), asset, leg.hub)
  }

  lemma HubNetIsDifference(leg: Leg, initial: State, final: State, n: nat, entry: nat, asset: nat)
    requires LegInv(leg, initial, final, n, entry) && asset < |initial.alloc.balances|
    ensures HubNet(leg, initial, final, n, entry, asset) ==
            Scatter(final.alloc.balances[asset], n, SettleMap(leg, entry), |SettleMap(leg, entry)|)[leg.hub] -
            Scatter(initial.alloc.balances[asset], n, leg.indexMap, |leg.indexMap|)[leg.hub]
  {
  }

  // ----- which maps give the hub everything back

  /** The participant whose balance ends up at a place; a later one overwrites an earlier one. */
  function LastTo(m: seq<Index>, h: Index): Option<nat>
    requires |m| == 2
  {
    if m[1] == h then Some(1) else if m[0] == h then Some(0) else None
  }

  /** The two maps bring the hub the balances of both participants, each once. */
  predicate SettlesAll(m0: seq<Index>, h0: Index, m1: seq<Index>, h1: Index)
    requires |m0| == 2 && |m1| == 2
  {
    LastTo(m0, h0).Some? && LastTo(m1, h1).Some? && LastTo(m0, h0) != LastTo(m1, h1)
  }

  lemma PlaceOfTwo(row: seq<int>, n: nat, m: seq<Index>, h: Index)
    requires |row| == 2 && |m| == 2 && InRange(m, n) && h < n
    ensures Scatter(row, n, m, 2)[h] == match LastTo(m, h) case None => 0 case Some(j) => row[j]
  {
    assert Scatter(row, n, m, 1) == Zeros(n)[m[0] := row[0]];
  }

  /** The hub's share of a row, for any maps. */
  lemma ShareOfTwo(row: seq<int>, n: nat, m0: seq<Index>, h0: Index, m1: seq<Index>, h1: Index)
    requires |row| == 2 && |m0| == 2 && |m1| == 2 && InRange(m0, n) && InRange(m1, n) && h0 < n && h1 < n
    ensures HubShare(row, n, m0, h0, m1, h1) ==
            (match LastTo(m0, h0) case None => 0 case Some(j) => row[j]) +
            (match LastTo(m1, h1) case None => 0 case Some(j) => row[j])
  {
    PlaceOfTwo(row, n, m0, h0);
    PlaceOfTwo(row, n, m1, h1);
  }

  /** For injective maps this is the matching check. */
  lemma MatchingIsExact(m0: seq<Index>, h0: Index, m1: seq<Index>, h1: Index)
    requires |m0| == 2 && |m1| == 2 && Injective(m0) && Injective(m1)
    ensures HubCovers(m0, h0, m1, h1) <==> SettlesAll(m0, h0, m1, h1)
  {
    assert m0[0] != m0[1] && m1[0] != m1[1];
  }

  /** A row that shows the two participants' parts of a total. */
  predicate Divides(row: seq<int>, total: int) {
    |row| == 2 && row[0] >= 0 && row[1] >= 0 && row[0] + row[1] == total
  }

  /** For all maps of two participants: the hub gets all of a locked amount back under every final state exactly if
      the last participants that the maps send to it exist and differ. */
  lemma SettleMapsExact(total: int, n: nat, m0: seq<Index>, h0: Index, m1: seq<Index>, h1: Index)
    requires total > 0 && |m0| == 2 && |m1| == 2 && InRange(m0, n) && InRange(m1, n) && h0 < n && h1 < n
    ensures (forall row: seq<int> :: Divides(row, total) ==> HubShare(row, n, m0, h0, m1, h1) == total) <==> SettlesAll(m0, h0, m1, h1)
  {
    forall row: seq<int> | Divides(row, total)
      ensures SettlesAll(m0, h0, m1, h1) ==> HubShare(row, n, m0, h0, m1, h1) == total
    {
      ShareOfTwo(row, n, m0, h0, m1, h1);
    }
    if forall row: seq<int> :: Divides(row, total) ==> HubShare(row, n, m0, h0, m1, h1) == total {
      assert Divides([total, 0], total) && Divides([0, total], total);
      ShareOfTwo([total, 0], n, m0, h0, m1, h1);
      ShareOfTwo([0, total], n, m0, h0, m1, h1);
    }
  }

  /** What the hub gains or loses over both parents, whatever the maps at settlement. */
  lemma HubNetSum(leg0: Leg, leg1: Leg, initial: State, final: State, n: nat, entry0: nat, entry1: nat, asset: nat)
    requires LegInv(leg0, initial, final, n, entry0) && LegInv(leg1, initial, final, n, entry1)
    requires HubCovers(leg0.indexMap, leg0.hub, leg1.indexMap, leg1.hub) && asset < |initial.alloc.balances|
    ensures HubNet(leg0, initial, final, n, entry0, asset) + HubNet(leg1, initial, final, n, entry1, asset) ==
            HubShare(final.alloc.balances[asset], n, SettleMap(leg0, entry0), leg0.hub, SettleMap(leg1, entry1), leg1.hub) -
            Sum(initial.alloc.balances[asset])
  {
    HubNetIsDifference(leg0, initial, final, n, entry0, asset);
    HubNetIsDifference(leg1, initial, final, n, entry1, asset);
    HubShareIsTotal(initial.alloc.balances[asset], n, leg0.indexMap, leg0.hub, leg1.indexMap, leg1.hub);
  }

  /** Hub neutrality: two matched fundings, settled with one common final state that locks nothing while the
      entries' maps give the hub everything back, change the hub's holdings by zero in every asset over its two
      parents together, whatever else happened to the parents in between. */
  lemma HubNeutrality(leg0: Leg, leg1: Leg, initial: State, final: State, n: nat, entry0: nat, entry1: nat, asset: nat)
    requires LegInv(leg0, initial, final, n, entry0) && LegInv(leg1, initial, final, n, entry1)
    requires HubCovers(leg0.indexMap, leg0.hub, leg1.indexMap, leg1.hub)
    requires SettlesAll(SettleMap(leg0, entry0), leg0.hub, SettleMap(leg1, entry1), leg1.hub)
    requires initial.alloc.locked == [] && final.alloc.locked == []
    requires leg0.open.alloc.locked[entry0].bals == SumAlloc(final.alloc)
    requires asset < |initial.alloc.balances|
    ensures HubNet(leg0, initial, final, n, entry0, asset) + HubNet(leg1, initial, final, n, entry1, asset) == 0
  {
    HubNetSum(leg0, leg1, initial, final, n, entry0, entry1, asset);
    var b, f := initial.alloc.balances[asset], final.alloc.balances[asset];
    ShareOfTwo(f, n, SettleMap(leg0, entry0), leg0.hub, SettleMap(leg1, entry1), leg1.hub);
    SmallSum(f);
    NothingLockedSum(initial.alloc);
    NothingLockedSum(final.alloc);
    assert SumAlloc(initial.alloc)[asset] == SumAlloc(final.alloc)[asset];
    assert Sum(b) == Sum(f);
  }

  // ----- maps that were rewritten in between

  /** The state with another index map in one entry. */
  function WithMap(s: State, k: nat, m: seq<Index>): State
    requires k < |s.alloc.locked|
  {
    s.(version := NextVersion(s), alloc := s.alloc.(locked := s.alloc.locked[k := s.alloc.locked[k].(indexMap := m)]))
  }

  lemma {:induction false} SameTotals(a: seq<SubAlloc>, k: nat, m: seq<Index>, asset: nat)
    requires k < |a|
    ensures LockedTotal(a[k := a[k].(indexMap := m)], asset) == LockedTotal(a, asset)
  {
    var b := a[k := a[k].(indexMap := m)];
    if k < |a| - 1 {
      SameTotals(a[..|a| - 1], k, m, asset);
      assert b[..|b| - 1] == a[..|a| - 1][k := a[k].(indexMap := m)];
    } else {
      assert b[..|b| - 1] == a[..|a| - 1];
    }
  }

  /** Every such rewriting of a map is a valid transition of an open channel, and the check of two-party updates
      does not see it. */
  lemma MapRewriteAccepted(params: Params, s: State, k: nat, m: seq<Index>)
    requires s.id == params.id && s.app == params.app && !s.isFinal && ValidAlloc(s.alloc) && k < |s.alloc.locked|
    ensures ValidTransition(params, s, WithMap(s, k, m)) && SubAllocsEqual(s.alloc.locked, WithMap(s, k, m).alloc.locked)
  {
    var t := WithMap(s, k, m);
    forall i | 0 <= i < |s.alloc.balances|
      ensures SumAlloc(s.alloc)[i] == SumAlloc(t.alloc)[i]
    {
      SameTotals(s.alloc.locked, k, m, i);
    }
    assert forall i :: 0 <= i < |t.alloc.balances| ==> t.alloc.balances[i] == s.alloc.balances[i];
  }

  /** With one map rewritten after matching, the hub may get nothing back of what was locked; with both maps rewritten
      to repeat a target it may get it twice, although the matching check would still pass. */
  lemma RewrittenMapUncovers(total: int)
    requires total > 0
    ensures HubCovers([0, 1], 1, [1, 0], 1) && HubShare([0, total], 2, [0, 1], 1, [1, 0], 1) == total
    ensures !SettlesAll([1, 0], 1, [1, 0], 1) && HubShare([0, total], 2, [1, 0], 1, [1, 0], 1) == 0
    ensures HubCovers([1, 1], 1, [1, 1], 1) && !SettlesAll([1, 1], 1, [1, 1], 1) && HubShare([0, total], 2, [1, 1], 1, [1, 1], 1) == 2 * total
  {
    ShareOfTwo([0, total], 2, [0, 1], 1, [1, 0], 1);
    ShareOfTwo([0, total], 2, [1, 0], 1, [1, 0], 1);
    ShareOfTwo([0, total], 2, [1, 1], 1, [1, 1], 1);
  }

  // ----- what the funding check leaves open

  lemma LockedFromBalances(a: Allocation, b: Allocation, entry: SubAlloc, asset: nat)
    requires SumAlloc(a) == SumAlloc(b) && b.locked == a.locked + [entry] && asset < |a.balances|
    ensures asset < |b.balances| && Sum(b.balances[asset]) == Sum(a.balances[asset]) - BalAt(entry, asset)
  {
    assert |SumAlloc(a)| == |a.balances| && |SumAlloc(b)| == |b.balances|;
    LockedTotalSnoc(a.locked, entry, asset);
    assert SumAlloc(a)[asset] == SumAlloc(b)[asset];
  }

  /** The proposal's map can be applied to the parent. */
  predicate MapFits(parent: State, prop: FundingProposal) {
    && parent.alloc.balances != [] && Covers(prop.initial.state.alloc.balances, prop.indexMap)
    && InRange(prop.indexMap, |parent.alloc.balances[0]|)
    && SameDims(Transform(prop.initial.state.alloc.balances, |parent.alloc.balances[0]|, prop.indexMap), parent.alloc.balances)
  }

  /** The balances that the proposal's map takes out of the parent. */
  function Mapped(parent: State, prop: FundingProposal): Balances
    requires MapFits(parent, prop)
  {
    Transform(prop.initial.state.alloc.balances, |parent.alloc.balances[0]|, prop.indexMap)
  }

  /** The proposed allocation is the one that proposeVirtualChannelFunding builds with the proposal's map. */
  predicate HonestFunding(parent: State, prop: FundingProposal) {
    MapFits(parent, prop) &&
    prop.next.alloc == VirtualFundState(parent, prop.initial.state.id, Mapped(parent, prop), prop.indexMap).alloc
  }

  /** What the hub would have to look at: assets and dimensions, the Locked list, and its own balances. */
  predicate HubChecks(parent: State, prop: FundingProposal, hub: Index) {
    && MapFits(parent, prop)
    && prop.next.alloc.assets == parent.alloc.assets && NumParts(prop.next.alloc) == NumParts(parent.alloc)
    && prop.next.alloc.locked == VirtualFundState(parent, prop.initial.state.id, Mapped(parent, prop), prop.indexMap).alloc.locked
    && OwnColumn(parent.alloc.balances, prop.next.alloc.balances, Mapped(parent, prop), hub)
  }

  /** One participant's balances are what is left after taking out the mapped ones. */
  predicate OwnColumn(before: Balances, after: Balances, mapped: Balances, hub: Index) {
    forall a :: 0 <= a < |before| && a < |after| && a < |mapped| && hub < |before[a]| && hub < |after[a]| && hub < |mapped[a]| ==>
      after[a][hub] == before[a][hub] - mapped[a][hub]
  }

  /** A row of two with a fixed sum is fixed by one of its places. */
  lemma OtherPlace(b: seq<int>, b': seq<int>, mapped: seq<int>, hub: Index)
    requires |b| == 2 && |b'| == 2 && |mapped| == 2 && hub < 2
    requires Sum(b') == Sum(b) - Sum(mapped) && b'[hub] == b[hub] - mapped[hub]
    ensures b' == SubRow(b, mapped)
  {
    SmallSum(b);
    SmallSum(b');
    SmallSum(mapped);
    assert Sum(b) == b[0] + b[1] && Sum(b') == b'[0] + b'[1] && Sum(mapped) == mapped[0] + mapped[1];
    assert b'[0] == b[0] - mapped[0] && b'[1] == b[1] - mapped[1] by {
      assert hub == 0 || hub == 1;
    }
    var rest := SubRow(b, mapped);
    assert rest[0] == b'[0] && rest[1] == b'[1];
  }

  /** For every accepted funding proposal in a two-party parent: it is the honest one exactly if the hub's checks hold,
      which the source does not make. */
  lemma FundingHonestIff(env: Env, params: Params, parent: State, prop: FundingProposal, hub: Index)
    requires ValidFundingProposal(env, parent, prop) && ValidTransition(params, parent, prop.next) && ValidAlloc(parent.alloc)
    requires NumParts(parent.alloc) == 2 && hub < 2
    ensures HonestFunding(parent, prop) <==> HubChecks(parent, prop, hub)
  {
    if HubChecks(parent, prop, hub) {
      var mapped, next := Mapped(parent, prop), prop.next.alloc;
      assert |SumAlloc(parent.alloc)| == |SumAlloc(next)|;
      forall a | 0 <= a < |parent.alloc.balances|
        ensures next.balances[a] == SubBalances(parent.alloc.balances, mapped)[a]
      {
        LockedFromBalances(parent.alloc, next, SubAlloc(prop.initial.state.id, SumBalances(mapped), prop.indexMap), a);
        assert ValidRow(parent.alloc.balances[a], 2) && ValidRow(next.balances[a], 2);
        OtherPlace(parent.alloc.balances[a], next.balances[a], mapped[a], hub);
      }
      assert next.balances == SubBalances(parent.alloc.balances, mapped);
    }
  }

  /** A proposal in which the proposer keeps its balance and only the hub pays. */
  function UnevenFunding(env: Env): (Params, State, FundingProposal) {
    var params := Params([1], 1, [[10], [11]], NoApp, 0, true, false);
    var parent := State([1], 0, NoApp, Allocation([[9]], [[5, 5]], []), [], false);
    var virtual := Params([2], 1, [[10], [12]], NoApp, 0, false, true);
    var initial := State([2], 0, NoApp, Allocation([[9]], [[2, 2]], []), [], false);
    var sigs := [Some(env.sign([10], initial)), Some(env.sign([12], initial))];
    var next := parent.(version := 1, alloc := Allocation([[9]], [[5, 1]], [SubAlloc([2], [4], [0, 1])]));
    (params, parent, FundingProposal(next, SignedState(virtual, initial, sigs), [0, 1]))
  }

  /** The hub's check and the machine accept it, though the honest proposal would leave the hub 3 and not 1. */
  lemma UnevenFundingAccepted(env: Env)
    requires Lawful(env)
    ensures var (params, parent, prop) := UnevenFunding(env);
            && ValidFundingProposal(env, parent, prop) && ValidTransition(params, parent, prop.next)
            && prop.next.alloc.balances[0][1] == 1 && parent.alloc.balances[0][1] - Transform([[2, 2]], 2, [0, 1])[0][1] == 3
  {
    var (params, parent, prop) := UnevenFunding(env);
    var entry := SubAlloc([2], [4], [0, 1]);
    SampleMapped();
    SmallSum([2, 2]);
    SmallSum([5, 5]);
    SmallSum([5, 1]);
    assert SumAlloc(prop.initial.state.alloc) == [4];
    TwoLocked(entry, entry);
    assert SumAlloc(prop.next.alloc) == [10] == SumAlloc(parent.alloc);
  }

  /** A parent with another sub-channel X, and a proposal that moves funds of the hub into X's entry. */
  function ShiftedFunding(env: Env): (Params, State, FundingProposal) {
    var (params, plain, prop) := UnevenFunding(env);
    var x := SubAlloc([3], [3], []);
    var parent := plain.(alloc := plain.alloc.(locked := [x]));
    var next := prop.next.(alloc := Allocation([[9]], [[3, 1]], [x.(bals := [5]), SubAlloc([2], [4], [0, 1])]));
    (params, parent, prop.(next := next))
  }

  lemma TwoLocked(x: SubAlloc, y: SubAlloc)
    ensures LockedTotal([x, y], 0) == BalAt(x, 0) + BalAt(y, 0) && LockedTotal([x], 0) == BalAt(x, 0)
  {
    LockedTotalSnoc([], x, 0);
    assert [] + [x] == [x];
    LockedTotalSnoc([x], y, 0);
    assert [x] + [y] == [x, y];
  }

  /** It is accepted although X's entry grew: the other participant has its honest 3, the hub 1 and not 3. */
  lemma ShiftedFundingAccepted(env: Env)
    requires Lawful(env)
    ensures var (params, parent, prop) := ShiftedFunding(env);
            && ValidFundingProposal(env, parent, prop) && ValidTransition(params, parent, prop.next)
            && prop.next.alloc.balances == [[3, 1]] && !HubChecks(parent, prop, 1)
  {
    var (params, parent, prop) := ShiftedFunding(env);
    SampleMapped();
    SmallSum([2, 2]);
    SmallSum([5, 5]);
    SmallSum([3, 1]);
    TwoLocked(SubAlloc([3], [5], []), SubAlloc([2], [4], [0, 1]));
    TwoLocked(SubAlloc([3], [3], []), SubAlloc([2], [4], [0, 1]));
    assert SumAlloc(prop.initial.state.alloc) == [4];
    assert SumAlloc(prop.next.alloc) == [13] == SumAlloc(parent.alloc);
    assert prop.next.alloc.locked[0] != (parent.alloc.locked + [SubAlloc([2], [4], [0, 1])])[0];
  }

  lemma SampleMapped()
    ensures Transform([[2, 2]], 2, [0, 1]) == [[2, 2]] && Transform([[2, 2]], 2, [1, 0]) == [[2, 2]]
  {
    assert Scatter([2, 2], 2, [0, 1], 1) == Zeros(2)[0 := 2] && Scatter([2, 2], 2, [0, 1], 2) == [2, 2];
    assert Scatter([2, 2], 2, [1, 0], 1) == Zeros(2)[1 := 2] && Scatter([2, 2], 2, [1, 0], 2) == [2, 2];
  }

  /** A proposal whose entry carries another map than the proposal says. */
  function CrossedFunding(env: Env): (Params, State, FundingProposal) {
    var (params, parent, prop) := UnevenFunding(env);
    (params, parent, prop.(next := prop.next.(alloc := Allocation([[9]], [[3, 3]], [SubAlloc([2], [4], [1, 0])]))))
  }

  /** It is accepted too. */
  lemma CrossedFundingAccepted(env: Env)
    requires Lawful(env)
    ensures var (params, parent, prop) := CrossedFunding(env);
            && ValidFundingProposal(env, parent, prop) && ValidTransition(params, parent, prop.next)
            && prop.next.alloc.locked[0].indexMap != prop.indexMap && !HubChecks(parent, prop, 1)
  {
    var (params, parent, prop) := CrossedFunding(env);
    var entry := SubAlloc([2], [4], [1, 0]);
    SampleMapped();
    SmallSum([2, 2]);
    SmallSum([5, 5]);
    SmallSum([3, 3]);
    TwoLocked(entry, entry);
    assert SumAlloc(prop.initial.state.alloc) == [4];
    assert SumAlloc(prop.next.alloc) == [10] == SumAlloc(parent.alloc);
    assert [1, 0][0] != [0, 1][0];
  }

  // ----- what the settlement check leaves open

  /** The hub's check of a settlement covers the balances and the entry of the settled channel, so an accepted proposal is
      the honest one exactly if the assets and the other entries stay as they were. */
  lemma SettlementHonestIff(env: Env, parent: State, prop: SettlementProposal)
    requires ValidSettlementProposal(env, parent, prop)
    ensures var k := FindFrom(parent.alloc.locked, prop.final.state.id, 0).value;
            var mapped := Transform(prop.final.state.alloc.balances, |parent.alloc.balances[0]|, parent.alloc.locked[k].indexMap);
            prop.next.alloc == VirtualWithdrawState(parent, mapped, k).alloc <==>
              && prop.next.alloc.assets == parent.alloc.assets
              && prop.next.alloc.locked == parent.alloc.locked[..k] + parent.alloc.locked[k + 1..]
  {
  }

  /** The virtual channel of the samples is settled with 1 and 3, while the entry of X moves to a channel nobody knows. */
  function ShiftedSettlement(env: Env): (Params, State, SettlementProposal) {
    var (params, plain, prop) := UnevenFunding(env);
    var parent := plain.(alloc := plain.alloc.(locked := [SubAlloc([3], [3], []), SubAlloc([2], [4], [0, 1])]));
    var final := prop.initial.state.(version := 1, alloc := Allocation([[9]], [[1, 3]], []), isFinal := true);
    var sigs := [Some(env.sign([10], final)), Some(env.sign([12], final))];
    var next := parent.(version := 1, alloc := Allocation([[9]], [[6, 8]], [SubAlloc([4], [3], [])]));
    (params, parent, SettlementProposal(next, SignedState(prop.initial.params, final, sigs)))
  }

  lemma ShiftedSettlementTotals(env: Env)
    ensures var (_, parent, prop) := ShiftedSettlement(env);
            && SumAlloc(parent.alloc) == [17] == SumAlloc(prop.next.alloc) && SumAlloc(prop.final.state.alloc) == [4]
  {
    var (_, parent, prop) := ShiftedSettlement(env);
    SmallSum([1, 3]);
    SmallSum([5, 5]);
    SmallSum([6, 8]);
    TwoLocked(SubAlloc([3], [3], []), SubAlloc([2], [4], [0, 1]));
    TwoLocked(SubAlloc([4], [3], []), SubAlloc([2], [4], [0, 1]));
  }

  lemma ShiftedSettlementMapped()
    ensures Transform([[1, 3]], 2, [0, 1]) == [[1, 3]] && AddBalances([[5, 5]], [[1, 3]]) == [[6, 8]]
  {
    assert Scatter([1, 3], 2, [0, 1], 1) == Zeros(2)[0 := 1] && Scatter([1, 3], 2, [0, 1], 2) == [1, 3];
    assert AddRow([5, 5], [1, 3]) == [6, 8];
  }

  /** It is accepted. */
  lemma ShiftedSettlementAccepted(env: Env)
    requires Lawful(env)
    ensures var (params, parent, prop) := ShiftedSettlement(env);
            && ValidSettlementProposal(env, parent, prop) && ValidTransition(params, parent, prop.next)
            && prop.next.alloc.locked != parent.alloc.locked[..1] + parent.alloc.locked[2..]
  {
    var (params, parent, prop) := ShiftedSettlement(env);
    ShiftedSettlementTotals(env);
    ShiftedSettlementMapped();
    assert (parent.alloc.locked[..1] + parent.alloc.locked[2..])[0] == SubAlloc([3], [3], []);
  }
}

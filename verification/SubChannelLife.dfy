/** The life of a sub-channel, read off the fields: which proposals are funded, and what funding, updating and
    withdrawing do to every participant's balance (client/subchannel.go, client/proposal.go). */
module SubChannelLife {
  import opened Base
  import opened Sums
  import opened Allocations
  import opened States
  import opened SubChannels
  import opened Conservation
  import opened Rounds

  /** A participant's balance of an asset; none outside the dimensions. */
  function BalanceOf(a: Allocation, asset: nat, part: nat): int {
    if asset < |a.balances| && part < |a.balances[asset]| then a.balances[asset][part] else 0
  }

  /** An open parent with room in Locked whose participants each have what they put in, of the parent's assets. */
  predicate Fundable(net: Net, pid: ID, child: Params, init: Allocation) {
    && pid in net && child.id !in net
    && var p := net[pid].state;
       && !p.isFinal && |p.alloc.locked| < 1024
       && WellFormed(init, |child.parts|) && init.locked == []
       && init.assets == p.alloc.assets
       && |init.balances| == |p.alloc.balances|
       && (forall i :: 0 <= i < |init.balances| ==> |init.balances[i]| == |p.alloc.balances[i]|)
       && (forall i, j :: 0 <= i < |init.balances| && 0 <= j < |init.balances[i]| ==> init.balances[i][j] <= p.alloc.balances[i][j])
  }

  /** Exactly these fundings happen. */
  lemma FundIff(net: Net, pid: ID, child: Params, init: Allocation, data: bytes)
    requires pid in net ==> NodeInv(pid, net[pid])
    ensures CanFund(net, Event.Fund(pid, child, init, data)) <==> Fundable(net, pid, child, init)
  {
    WellFormedIff(init);
    if n: nat :| WellFormed(init, n) {
      assert |init.balances[0]| == n;
    }
    if pid in net && ValidAlloc(init) && ValidSubChannelProposal(net[pid].state, init) {
      FundingIsValidTransition(net[pid].params, net[pid].state, child.id, init);
    }
  }

  /** The new channel holds exactly what was proposed, and each participant has that much less in the parent, where the sums
      are locked. */
  ghost predicate Opened(net: Net, n: Net, pid: ID, child: Params, init: Allocation, data: bytes) {
    && pid in net && pid in n && pid != child.id && n.Keys == net.Keys + {child.id}
    && n[child.id] == Node(child, State(child.id, 0, child.app, init, data, false), Some(pid))
    && (var p, q := net[pid].state, n[pid].state;
        && n[pid] == net[pid].(state := q) && q.id == p.id && q.app == p.app && q.data == p.data && !q.isFinal
        && (forall a, u :: BalanceOf(p.alloc, a, u) - BalanceOf(q.alloc, a, u) == BalanceOf(init, a, u))
        && q.alloc.assets == p.alloc.assets && |q.alloc.locked| == |p.alloc.locked| + 1
        && q.alloc.locked[..|p.alloc.locked|] == p.alloc.locked
        && (var s := q.alloc.locked[|p.alloc.locked|];
            s.id == child.id && s.indexMap == [] && |s.bals| == |init.balances| && forall a :: 0 <= a < |s.bals| ==> s.bals[a] == Sum(init.balances[a])))
    && forall x :: x in net && x != pid ==> n[x] == net[x]
  }

  lemma FundedPlaceByPlace(net: Net, pid: ID, child: Params, init: Allocation, data: bytes)
    requires CanFund(net, Event.Fund(pid, child, init, data))
    ensures Opened(net, Apply(net, Event.Fund(pid, child, init, data)), pid, child, init, data)
  {
  }

  /** What each participant holds in a settled channel comes back to it in the parent, and nothing else changes there but the
      entry. */
  ghost predicate Returned(net: Net, n: Net, pid: ID, id: ID) {
    && pid in net && id in net && pid in n && pid != id && n.Keys == net.Keys - {id}
    && (var p, q := net[pid].state, n[pid].state;
        && n[pid] == net[pid].(state := q) && q.id == p.id && q.app == p.app && q.data == p.data && q.isFinal == p.isFinal
        && (forall a, u :: BalanceOf(q.alloc, a, u) - BalanceOf(p.alloc, a, u) == BalanceOf(net[id].state.alloc, a, u))
        && q.alloc.assets == p.alloc.assets
        && (forall s :: s in q.alloc.locked <==> s in p.alloc.locked && s.id != id))
    && forall x :: x in n && x != pid ==> n[x] == net[x]
  }

  lemma WithdrawnPlaceByPlace(net: Net, root: ID, id: ID)
    requires NetInv(net, root) && CanWithdraw(net, Event.Withdraw(id))
    ensures Returned(net, Apply(net, Event.Withdraw(id)), net[id].parent.value, id)
  {
    var pid := net[id].parent.value;
    var p, q := net[pid].state.alloc, Apply(net, Event.Withdraw(id))[pid].state.alloc;
    ReleasedPlaces(net, root, id);
    ReleasedState(net, root, Event.Withdraw(id));
    assert ChannelInv(net, pid);
    OnlyOneGoes(p.locked, FindFrom(p.locked, id, 0).value, q.locked);
  }

  lemma ReleasedPlaces(net: Net, root: ID, id: ID)
    requires NetInv(net, root) && CanWithdraw(net, Event.Withdraw(id))
    ensures var p, sub := net[net[id].parent.value].state, net[id].state;
            var q := Released(p, sub);
            && q.id == p.id && q.app == p.app && q.data == p.data && q.isFinal == p.isFinal && q.alloc.assets == p.alloc.assets
            && forall a, u :: BalanceOf(q.alloc, a, u) - BalanceOf(p.alloc, a, u) == BalanceOf(sub.alloc, a, u)
  {
    WithdrawNeverPanics(net, root, Event.Withdraw(id));
  }

  lemma OnlyOneGoes(a: seq<SubAlloc>, k: nat, b: seq<SubAlloc>)
    requires k < |a| && DistinctIDs(a) && b == a[..k] + a[k + 1..]
    ensures forall s :: s in b <==> s in a && s.id != a[k].id
  {
    forall s | s in b
      ensures s in a && s.id != a[k].id
    {
      var j :| 0 <= j < |b| && b[j] == s;
      RemainingEntries(a, k, b, j);
    }
    forall s | s in a && s.id != a[k].id
      ensures s in b
    {
      var i :| 0 <= i < |a| && a[i] == s;
      assert b[if i < k then i else i - 1] == s;
    }
  }

  /** The last state that the participants agree on in the sub-channel, reached in one update. */
  ghost predicate SettlesWith(child: Params, init: Allocation, f: State) {
    && f.id == child.id && f.app == child.app && f.version == 1 && f.isFinal
    && WellFormed(f.alloc, |child.parts|) && f.alloc.locked == [] && EqualTotals(init, f.alloc)
  }

  function Life(pid: ID, child: Params, init: Allocation, data: bytes, f: State): seq<Event> {
    [Event.Fund(pid, child, init, data), Event.Update(child.id, f), Event.Withdraw(child.id)]
  }

  lemma LifeSteps(net: Net, pid: ID, child: Params, init: Allocation, data: bytes, f: State)
    ensures var es := Life(pid, child, init, data, f);
            Run(net, es) == Apply(Apply(Apply(net, es[0]), es[1]), es[2])
  {
    var es := Life(pid, child, init, data, f);
    assert es[..2][..1] == es[..1] && es[..1][..0] == [];
    assert Run(net, es[..1]) == Apply(net, es[0]);
    assert Run(net, es[..2]) == Apply(Run(net, es[..2][..1]), es[..2][1]);
  }

  /** In the end the tree has the channels it had, and each participant of the parent has gained exactly what it gained in
      the sub-channel. */
  ghost predicate CameAndWent(net: Net, n: Net, pid: ID, init: Allocation, f: Allocation) {
    && pid in net && n.Keys == net.Keys
    && (forall a, u :: BalanceOf(n[pid].state.alloc, a, u) - BalanceOf(net[pid].state.alloc, a, u) ==
                       BalanceOf(f, a, u) - BalanceOf(init, a, u))
    && (forall s :: s in n[pid].state.alloc.locked <==> s in net[pid].state.alloc.locked)
    && (forall x :: x in net && x != pid ==> n[x] == net[x])
  }

  /** Every fundable channel can be opened, brought to any agreed final state and withdrawn. */
  lemma SubChannelLives(net: Net, root: ID, pid: ID, child: Params, init: Allocation, data: bytes, f: State)
    requires NetInv(net, root) && Fundable(net, pid, child, init) && SettlesWith(child, init, f)
    ensures CameAndWent(net, Run(net, Life(pid, child, init, data, f)), pid, init, f.alloc)
  {
    LifeSteps(net, pid, child, init, data, f);
    Funded(net, root, pid, child, init, data);
    FundedPlaceByPlace(net, pid, child, init, data);
    var n1 := Apply(net, Event.Fund(pid, child, init, data));
    Finalised(n1, root, pid, child, init, data, f);
    var n2 := Apply(n1, Event.Update(child.id, f));
    WithdrawnPlaceByPlace(n2, root, child.id);
    LifeLocked(net, root, pid, child.id, n1[pid].state.alloc.locked);
    InAll(net, n1, n2, Apply(n2, Event.Withdraw(child.id)), pid, child, init, data, f);
  }

  lemma InAll(net: Net, n1: Net, n2: Net, n3: Net, pid: ID, child: Params, init: Allocation, data: bytes, f: State)
    requires Opened(net, n1, pid, child, init, data) && child.id !in net
    requires n2 == n1[child.id := n1[child.id].(state := f)] && Returned(n2, n3, pid, child.id)
    requires forall s :: (s in n1[pid].state.alloc.locked && s.id != child.id) <==> s in net[pid].state.alloc.locked
    ensures CameAndWent(net, n3, pid, init, f.alloc)
  {
  }

  lemma Funded(net: Net, root: ID, pid: ID, child: Params, init: Allocation, data: bytes)
    requires NetInv(net, root) && Fundable(net, pid, child, init)
    ensures CanFund(net, Event.Fund(pid, child, init, data)) && NetInv(Apply(net, Event.Fund(pid, child, init, data)), root)
  {
    assert ChannelInv(net, pid);
    FundIff(net, pid, child, init, data);
    FundKeepsInv(net, root, Event.Fund(pid, child, init, data));
  }

  lemma CanFinalise(n1: Net, pid: ID, child: Params, init: Allocation, data: bytes, f: State)
    requires child.id in n1 && n1[child.id] == Node(child, State(child.id, 0, child.app, init, data, false), Some(pid))
    requires WellFormed(init, |child.parts|) && init.locked == [] && SettlesWith(child, init, f)
    ensures CanUpdate(n1, Event.Update(child.id, f))
  {
    WellFormedIff(f.alloc);
    EqualTotalsIff(init, f.alloc);
  }

  lemma Finalised(n1: Net, root: ID, pid: ID, child: Params, init: Allocation, data: bytes, f: State)
    requires NetInv(n1, root) && child.id in n1 && pid in n1 && pid != child.id && !n1[pid].state.isFinal
    requires n1[child.id] == Node(child, State(child.id, 0, child.app, init, data, false), Some(pid))
    requires WellFormed(init, |child.parts|) && init.locked == [] && SettlesWith(child, init, f)
    ensures var n2 := Apply(n1, Event.Update(child.id, f));
            && n2 == n1[child.id := n1[child.id].(state := f)]
            && NetInv(n2, root) && CanWithdraw(n2, Event.Withdraw(child.id)) && n2[child.id].parent == Some(pid)
  {
    CanFinalise(n1, pid, child, init, data, f);
    UpdateKeepsInv(n1, root, Event.Update(child.id, f));
  }

  lemma LifeLocked(net: Net, root: ID, pid: ID, id: ID, locked: seq<SubAlloc>)
    requires NetInv(net, root) && pid in net && id !in net
    requires |locked| == |net[pid].state.alloc.locked| + 1 && locked[..|locked| - 1] == net[pid].state.alloc.locked
    requires locked[|locked| - 1].id == id
    ensures forall s :: (s in locked && s.id != id) <==> s in net[pid].state.alloc.locked
  {
    var was := net[pid].state.alloc.locked;
    assert locked == was + [locked[|locked| - 1]];
    assert ChannelInv(net, pid);
    forall s | s in was
      ensures s.id != id
    {
      var k :| 0 <= k < |was| && was[k] == s;
      assert EntryInv(net, pid, was[k]);
    }
  }

  // ----- what the peer lets pass

  /** The first entry for a channel holds these amounts. */
  predicate FirstEntry(a: Allocation, id: ID, bals: seq<Bal>, k: nat) {
    k < |a.locked| && a.locked[k].id == id && a.locked[k].bals == bals && forall i :: 0 <= i < k ==> a.locked[i].id != id
  }

  predicate Names(a: Allocation, id: ID) {
    exists k :: 0 <= k < |a.locked| && a.locked[k].id == id
  }

  /** The peer lets exactly those updates pass as the awaited funding that lock the agreed amounts for a channel not locked before. */
  lemma FundingPassesIff(current: State, id: ID, bals: seq<Bal>, next: State)
    ensures FundingFilter(current, id, bals, next) <==>
              !Names(current.alloc, id) && exists k: nat :: FirstEntry(next.alloc, id, bals, k)
  {
    if FundingFilter(current, id, bals, next) {
      assert FirstEntry(next.alloc, id, bals, FindFrom(next.alloc.locked, id, 0).value);
    }
    if k: nat :| FirstEntry(next.alloc, id, bals, k) {
      assert FindFrom(next.alloc.locked, id, 0) == Some(k);
    }
  }

  /** Each participant has its balance of the settled channel more than before. */
  predicate AllPaid(before: Balances, bals: Balances, after: Balances) {
    && SameDims(bals, before) && SameDims(after, before)
    && forall a, u :: 0 <= a < |before| && 0 <= u < |before[a]| ==> after[a][u] == before[a][u] + bals[a][u]
  }

  /** And exactly those as the awaited settlement that unlock a locked channel and give each participant its final balance. */
  lemma SettlementPassesIff(current: State, id: ID, bals: Balances, next: State)
    ensures SettlementFilter(current, id, bals, next) <==>
              Names(current.alloc, id) && !Names(next.alloc, id) && AllPaid(current.alloc.balances, bals, next.alloc.balances)
  {
    var b, c := current.alloc.balances, next.alloc.balances;
    if AllPaid(b, bals, c) {
      forall a | 0 <= a < |b|
        ensures c[a] == AddRow(b[a], bals[a])
      {
      }
      assert c == AddBalances(b, bals);
    }
  }
}

/** Conservation of funds over every run on a tree of channels: funding of sub-channels, ordinary
    updates and withdrawals (client/subchannel.go, client/update.go, client/adjudicate.go). */
module Conservation {
  import opened Base
  import opened Sums
  import opened Allocations
  import opened States
  import opened SubChannels

  /** A running channel; the root has no parent. */
  datatype Node = Node(params: Params, state: State, parent: Option<ID>)

  type Net = map<ID, Node>

  datatype Event =
    | Fund(parent: ID, child: Params, init: Allocation, data: bytes)
    | Update(id: ID, next: State)
    | Withdraw(id: ID)

  /** fundSubchannel: the proposal passes the checks, the ID is new and the parent accepts the update. */
  predicate CanFund(net: Net, e: Event)
    requires e.Fund?
  {
    && e.parent in net && e.child.id !in net
    && var p := net[e.parent];
       && ValidSubChannelProposal(p.state, e.init)
       && NewState(e.child, e.init, e.data).Some?
       && ValidTransition(p.params, p.state, FundState(p.state, e.child.id, e.init))
  }

  /** Channel.Update: a valid transition that leaves the sub-allocations alone. That the numbers of assets
      and participants stay the same is not checked by the source; it is assumed of the run. */
  predicate CanUpdate(net: Net, e: Event)
    requires e.Update?
  {
    && e.id in net
    && var c := net[e.id];
       && ValidTransition(c.params, c.state, e.next)
       && SubAllocsEqual(c.state.alloc.locked, e.next.alloc.locked)
       && SameDims(e.next.alloc.balances, c.state.alloc.balances)
  }

  /** Settle of a sub-channel: it is final, holds no locked funds, and its parent can still be updated. */
  predicate CanWithdraw(net: Net, e: Event)
    requires e.Withdraw?
  {
    && e.id in net && net[e.id].parent.Some? && net[e.id].parent.value in net
    && net[e.id].state.isFinal && net[e.id].state.alloc.locked == []
    && !net[net[e.id].parent.value].state.isFinal
  }

  /** The parent's new state after releasing the sub-channel; the same state where the source would panic. */
  function Released(parent: State, sub: State): State {
    if Withdrawable(parent, sub) && SameDims(sub.alloc.balances, parent.alloc.balances)
    then WithdrawState(parent, sub, FindFrom(parent.alloc.locked, sub.id, 0).value)
    else parent
  }

  function Apply(net: Net, e: Event): Net {
    match e
    case Fund(p, child, init, data) =>
      if !CanFund(net, e) then net
      else net[p := net[p].(state := FundState(net[p].state, child.id, init))]
              [child.id := Node(child, NewState(child, init, data).value, Some(p))]
    case Update(id, next) => if !CanUpdate(net, e) then net else net[id := net[id].(state := next)]
    case Withdraw(id) =>
      if !CanWithdraw(net, e) then net
      else
        var p := net[id].parent.value;
        net[p := net[p].(state := Released(net[p].state, net[id].state))] - {id}
  }

  function Run(net: Net, events: seq<Event>): Net {
    if events == [] then net else Apply(Run(net, events[..|events| - 1]), events[|events| - 1])
  }

  // ----- invariant

  predicate NodeInv(id: ID, n: Node) {
    n.params.id == id && n.state.id == id && n.state.app == n.params.app && ValidAlloc(n.state.alloc) && DistinctIDs(n.state.alloc.locked)
  }

  /** A locked entry stands for exactly what its sub-channel holds. */
  predicate EntryInv(net: Net, id: ID, s: SubAlloc) {
    && s.id in net && s.id != id
    && net[s.id].parent == Some(id)
    && s.bals == SumAlloc(net[s.id].state.alloc)
  }

  predicate LinkInv(net: Net, id: ID, n: Node) {
    n.parent.Some? ==>
      && n.parent.value in net
      && FindSubAlloc(net[n.parent.value].state.alloc, id).Some?
      && SameDims(n.state.alloc.balances, net[n.parent.value].state.alloc.balances)
  }

  predicate ChannelInv(net: Net, id: ID)
    requires id in net
  {
    && NodeInv(id, net[id])
    && LinkInv(net, id, net[id])
    && forall k :: 0 <= k < |net[id].state.alloc.locked| ==> EntryInv(net, id, net[id].state.alloc.locked[k])
  }

  ghost predicate NetInv(net: Net, root: ID) {
    && root in net && net[root].parent.None?
    && forall id :: id in net ==> ChannelInv(net, id)
  }

  /** The only entry for an ID in a list of distinct IDs is the one that is found. */
  lemma FoundIsUnique(a: Allocation, k: nat)
    requires DistinctIDs(a.locked) && k < |a.locked|
    ensures FindFrom(a.locked, a.locked[k].id, 0) == Some(k)
    ensures FindSubAlloc(a, a.locked[k].id) == Some(a.locked[k])
    ensures LockedOnce(a, a.locked[k].id)
  {
  }

  lemma SubAllocsEqualFinds(a: Allocation, b: Allocation, id: ID)
    requires SubAllocsEqual(a.locked, b.locked) && FindSubAlloc(a, id).Some?
    ensures FindSubAlloc(b, id).Some?
  {
    var k := FindFrom(a.locked, id, 0).value;
    assert SubAllocEqual(a.locked[k], b.locked[k]);
  }

  lemma EqualSubAllocsDistinct(a: seq<SubAlloc>, b: seq<SubAlloc>)
    requires SubAllocsEqual(a, b) && DistinctIDs(a)
    ensures DistinctIDs(b)
  {
    forall i, j | 0 <= i < j < |b|
      ensures b[i].id != b[j].id
    {
      assert SubAllocEqual(a[i], b[i]) && SubAllocEqual(a[j], b[j]);
    }
  }

  /** Replacing one channel's state by one with the same total, dimensions and locked IDs disturbs no
      other channel. */
  lemma OthersUndisturbed(net: Net, id: ID, s: State, x: ID)
    requires id in net && x in net && x != id && ChannelInv(net, x)
    requires SumAlloc(s.alloc) == SumAlloc(net[id].state.alloc)
    requires SameDims(s.alloc.balances, net[id].state.alloc.balances)
    requires net[x].parent == Some(id) ==> FindSubAlloc(s.alloc, x).Some?
    ensures ChannelInv(net[id := net[id].(state := s)], x)
  {
    var m := net[id := net[id].(state := s)];
    forall k | 0 <= k < |m[x].state.alloc.locked|
      ensures EntryInv(m, x, m[x].state.alloc.locked[k])
    {
      assert EntryInv(net, x, net[x].state.alloc.locked[k]);
    }
  }

  /** An ordinary update changes no total, so every entry about the channel stays right. */
  lemma UpdatedChannel(net: Net, e: Event)
    requires e.Update? && CanUpdate(net, e) && ChannelInv(net, e.id)
    ensures ChannelInv(Apply(net, e), e.id)
  {
    var m, a, b := Apply(net, e), net[e.id].state.alloc.locked, e.next.alloc.locked;
    EqualSubAllocsDistinct(a, b);
    forall k | 0 <= k < |b|
      ensures EntryInv(m, e.id, b[k])
    {
      assert EntryInv(net, e.id, a[k]) && SubAllocEqual(a[k], b[k]);
    }
    assert LinkInv(net, e.id, net[e.id]);
    if net[e.id].parent == Some(e.id) {
      SubAllocsEqualFinds(net[e.id].state.alloc, e.next.alloc, e.id);
    }
  }

  lemma UpdateKeepsInv(net: Net, root: ID, e: Event)
    requires NetInv(net, root) && e.Update? && CanUpdate(net, e)
    ensures NetInv(Apply(net, e), root)
  {
    var m := Apply(net, e);
    forall id | id in m
      ensures ChannelInv(m, id)
    {
      if id == e.id {
        UpdatedChannel(net, e);
      } else {
        if net[id].parent == Some(e.id) {
          assert LinkInv(net, id, net[id]);
          SubAllocsEqualFinds(net[e.id].state.alloc, e.next.alloc, id);
        }
        OthersUndisturbed(net, e.id, e.next, id);
      }
    }
  }

  /** A new channel that nobody refers to yet disturbs no other channel. */
  lemma NewcomerUndisturbing(net: Net, id: ID, n: Node, x: ID)
    requires id !in net && x in net && ChannelInv(net, x)
    ensures ChannelInv(net[id := n], x)
  {
    var m := net[id := n];
    forall k | 0 <= k < |m[x].state.alloc.locked|
      ensures EntryInv(m, x, m[x].state.alloc.locked[k])
    {
      assert EntryInv(net, x, net[x].state.alloc.locked[k]);
    }
  }

  lemma AppendFinds(a: Allocation, s: SubAlloc, b: Allocation, id: ID)
    requires b.locked == a.locked + [s] && (FindSubAlloc(a, id).Some? || s.id == id)
    ensures FindSubAlloc(b, id).Some?
  {
    var k := if FindSubAlloc(a, id).Some? then FindFrom(a.locked, id, 0).value else |a.locked|;
    assert b.locked[k].id == id;
  }

  /** The funded parent: its new entry stands for exactly what the new channel holds. */
  lemma FundedParent(net: Net, e: Event)
    requires e.Fund? && CanFund(net, e) && ChannelInv(net, e.parent)
    ensures SumAlloc(Apply(net, e)[e.parent].state.alloc) == SumAlloc(net[e.parent].state.alloc)
    ensures ChannelInv(Apply(net, e), e.parent)
  {
    var m, p, c := Apply(net, e), net[e.parent].state, NewState(e.child, e.init, e.data).value;
    var was, now := p.alloc.locked, m[e.parent].state.alloc.locked;
    NothingLockedSum(c.alloc);
    LockingKeepsTotals(p.alloc, e.init.balances, now[|was|]);
    forall k | 0 <= k < |now|
      ensures EntryInv(m, e.parent, now[k])
    {
      assert k < |was| ==> EntryInv(net, e.parent, was[k]);
    }
    forall i, j | 0 <= i < j < |now|
      ensures now[i].id != now[j].id
    {
      assert EntryInv(net, e.parent, was[i]);
    }
    assert LinkInv(net, e.parent, net[e.parent]);
    if net[e.parent].parent == Some(e.parent) {
      AppendFinds(p.alloc, now[|was|], m[e.parent].state.alloc, e.parent);
    }
  }

  lemma FundedChild(net: Net, e: Event)
    requires e.Fund? && CanFund(net, e)
    ensures ChannelInv(Apply(net, e), e.child.id)
  {
    var m, p := Apply(net, e), net[e.parent].state;
    var s := SubAlloc(e.child.id, SumBalances(e.init.balances), []);
    AppendFinds(p.alloc, s, m[e.parent].state.alloc, e.child.id);
    assert DistinctIDs(m[e.child.id].state.alloc.locked);
  }

  lemma FundKeepsInv(net: Net, root: ID, e: Event)
    requires NetInv(net, root) && e.Fund? && CanFund(net, e)
    ensures NetInv(Apply(net, e), root)
  {
    var m := Apply(net, e);
    FundedParent(net, e);
    FundedChild(net, e);
    var p, child := m[e.parent].state, m[e.child.id];
    forall id | id in m
      ensures ChannelInv(m, id)
    {
      if id != e.parent && id != e.child.id {
        if net[id].parent == Some(e.parent) {
          assert LinkInv(net, id, net[id]);
          AppendFinds(net[e.parent].state.alloc, p.alloc.locked[|p.alloc.locked| - 1], p.alloc, id);
        }
        OthersUndisturbed(net, e.parent, p, id);
        NewcomerUndisturbing(net[e.parent := net[e.parent].(state := p)], e.child.id, child, id);
      }
    }
  }

  /** In every state of the invariant none of withdrawSubChannel's panics can be hit, the update it
      builds is a valid transition of the parent and the peer's filter catches it. */
  lemma WithdrawNeverPanics(net: Net, root: ID, e: Event)
    requires NetInv(net, root) && e.Withdraw? && CanWithdraw(net, e)
    ensures var sub, parent := net[e.id].state, net[net[e.id].parent.value];
            && Withdrawable(parent.state, sub)
            && SameDims(sub.alloc.balances, parent.state.alloc.balances)
            && ValidTransition(parent.params, parent.state, Released(parent.state, sub))
            && SettlementFilter(parent.state, sub.id, sub.alloc.balances, Released(parent.state, sub))
  {
    var pid := net[e.id].parent.value;
    var sub, parent := net[e.id].state, net[pid];
    assert ChannelInv(net, e.id) && ChannelInv(net, pid);
    var k := FindFrom(parent.state.alloc.locked, sub.id, 0).value;
    assert EntryInv(net, pid, parent.state.alloc.locked[k]);
    FoundIsUnique(parent.state.alloc, k);
    WithdrawalIsValidTransition(parent.params, parent.state, sub, k);
    WithdrawalPassesFilter(parent.state, sub);
  }

  /** A channel that nobody refers to any more can go. */
  lemma LeaverUndisturbing(net: Net, id: ID, x: ID)
    requires x in net && x != id && ChannelInv(net, x) && net[x].parent != Some(id)
    requires forall k :: 0 <= k < |net[x].state.alloc.locked| ==> net[x].state.alloc.locked[k].id != id
    ensures ChannelInv(net - {id}, x)
  {
    var m := net - {id};
    forall k | 0 <= k < |m[x].state.alloc.locked|
      ensures EntryInv(m, x, m[x].state.alloc.locked[k])
    {
      assert EntryInv(net, x, net[x].state.alloc.locked[k]);
    }
  }

  lemma RemovalFinds(a: Allocation, k: nat, b: Allocation, id: ID)
    requires k < |a.locked| && b.locked == a.locked[..k] + a.locked[k + 1..]
    requires FindSubAlloc(a, id).Some? && id != a.locked[k].id
    ensures FindSubAlloc(b, id).Some?
  {
    var i := FindFrom(a.locked, id, 0).value;
    assert b.locked[if i < k then i else i - 1] == a.locked[i];
  }

  /** What remains after taking out an entry of distinct ones: old entries with other IDs. */
  lemma RemainingEntries(a: seq<SubAlloc>, k: nat, b: seq<SubAlloc>, j: nat)
    requires k < |a| && DistinctIDs(a) && b == a[..k] + a[k + 1..] && j < |b|
    ensures b[j].id != a[k].id && b[j] in a && DistinctIDs(b)
  {
    assert b[j] == a[if j < k then j else j + 1];
    forall x, y | 0 <= x < y < |b|
      ensures b[x].id != b[y].id
    {
      assert b[x] == a[if x < k then x else x + 1] && b[y] == a[if y < k then y else y + 1];
    }
  }

  /** The released state of the parent of a settled channel. */
  lemma ReleasedState(net: Net, root: ID, e: Event)
    requires NetInv(net, root) && e.Withdraw? && CanWithdraw(net, e)
    ensures var pid := net[e.id].parent.value;
            var a, s := net[pid].state.alloc, Released(net[pid].state, net[e.id].state);
            && pid != e.id && s.id == net[pid].state.id && s.app == net[pid].state.app && ValidAlloc(s.alloc)
            && SumAlloc(s.alloc) == SumAlloc(a) && SameDims(s.alloc.balances, a.balances)
            && var k := FindFrom(a.locked, e.id, 0);
               k.Some? && a.locked[k.value].id == e.id && s.alloc.locked == a.locked[..k.value] + a.locked[k.value + 1..]
  {
    WithdrawNeverPanics(net, root, e);
    var pid := net[e.id].parent.value;
    assert ChannelInv(net, pid) && ChannelInv(net, e.id);
    var k := FindFrom(net[pid].state.alloc.locked, e.id, 0).value;
    assert EntryInv(net, pid, net[pid].state.alloc.locked[k]);
  }

  lemma ReleasedEntry(net: Net, root: ID, e: Event, s: State, k: nat, j: nat)
    requires NetInv(net, root) && e.Withdraw? && CanWithdraw(net, e)
    requires var locked := net[net[e.id].parent.value].state.alloc.locked;
             k < |locked| && locked[k].id == e.id && s.alloc.locked == locked[..k] + locked[k + 1..] && j < |s.alloc.locked|
    ensures var pid := net[e.id].parent.value;
            EntryInv(net[pid := net[pid].(state := s)], pid, s.alloc.locked[j]) && s.alloc.locked[j].id != e.id
  {
    var pid := net[e.id].parent.value;
    var locked := net[pid].state.alloc.locked;
    assert ChannelInv(net, pid);
    RemainingEntries(locked, k, s.alloc.locked, j);
    var i :| 0 <= i < |locked| && locked[i] == s.alloc.locked[j];
    assert EntryInv(net, pid, locked[i]);
  }

  /** The parent after the release, before the settled channel is forgotten. */
  lemma ReleasedParent(net: Net, root: ID, e: Event)
    requires NetInv(net, root) && e.Withdraw? && CanWithdraw(net, e)
    ensures var pid := net[e.id].parent.value;
            var s := Released(net[pid].state, net[e.id].state);
            && pid != e.id
            && SumAlloc(s.alloc) == SumAlloc(net[pid].state.alloc)
            && SameDims(s.alloc.balances, net[pid].state.alloc.balances)
            && ChannelInv(net[pid := net[pid].(state := s)], pid)
            && (forall k :: 0 <= k < |s.alloc.locked| ==> s.alloc.locked[k].id != e.id)
            && (forall x :: x in net && x != e.id && net[x].parent == Some(pid) ==> FindSubAlloc(s.alloc, x).Some?)
  {
    ReleasedState(net, root, e);
    var pid := net[e.id].parent.value;
    var s := Released(net[pid].state, net[e.id].state);
    ReleasedLinks(net, root, e, s, FindFrom(net[pid].state.alloc.locked, e.id, 0).value);
  }

  lemma ReleasedLinks(net: Net, root: ID, e: Event, s: State, k: nat)
    requires NetInv(net, root) && e.Withdraw? && CanWithdraw(net, e)
    requires var p := net[net[e.id].parent.value].state;
             && s.id == p.id && s.app == p.app && ValidAlloc(s.alloc) && SameDims(s.alloc.balances, p.alloc.balances)
             && k < |p.alloc.locked| && p.alloc.locked[k].id == e.id
             && s.alloc.locked == p.alloc.locked[..k] + p.alloc.locked[k + 1..]
    ensures var pid := net[e.id].parent.value;
            && ChannelInv(net[pid := net[pid].(state := s)], pid)
            && (forall j :: 0 <= j < |s.alloc.locked| ==> s.alloc.locked[j].id != e.id)
            && (forall x :: x in net && x != e.id && net[x].parent == Some(pid) ==> FindSubAlloc(s.alloc, x).Some?)
  {
    var pid := net[e.id].parent.value;
    var a := net[pid].state.alloc;
    assert ChannelInv(net, pid);
    forall x | x in net && x != e.id && net[x].parent == Some(pid)
      ensures FindSubAlloc(s.alloc, x).Some?
    {
      assert ChannelInv(net, x);
      RemovalFinds(a, k, s.alloc, x);
    }
    forall j | 0 <= j < |s.alloc.locked|
      ensures EntryInv(net[pid := net[pid].(state := s)], pid, s.alloc.locked[j]) && s.alloc.locked[j].id != e.id
    {
      ReleasedEntry(net, root, e, s, k, j);
    }
    if s.alloc.locked != [] {
      RemainingEntries(a.locked, k, s.alloc.locked, 0);
    }
  }

  lemma WithdrawKeepsInv(net: Net, root: ID, e: Event)
    requires NetInv(net, root) && e.Withdraw? && CanWithdraw(net, e)
    ensures NetInv(Apply(net, e), root)
  {
    ReleasedParent(net, root, e);
    var pid := net[e.id].parent.value;
    var mid := net[pid := net[pid].(state := Released(net[pid].state, net[e.id].state))];
    forall id | id in mid && id != e.id
      ensures ChannelInv(mid - {e.id}, id)
    {
      assert ChannelInv(net, id);
      if id != pid {
        OthersUndisturbed(net, pid, mid[pid].state, id);
        NotReferredTo(net, e, id);
      }
      LeaverUndisturbing(mid, e.id, id);
    }
  }

  /** Nothing but the parent refers to a channel that holds no locked funds. */
  lemma NotReferredTo(net: Net, e: Event, x: ID)
    requires e.Withdraw? && CanWithdraw(net, e) && x in net && x != net[e.id].parent.value && ChannelInv(net, x)
    ensures net[x].parent != Some(e.id)
    ensures forall k :: 0 <= k < |net[x].state.alloc.locked| ==> net[x].state.alloc.locked[k].id != e.id
  {
    forall k | 0 <= k < |net[x].state.alloc.locked|
      ensures net[x].state.alloc.locked[k].id != e.id
    {
      assert EntryInv(net, x, net[x].state.alloc.locked[k]);
    }
  }

  lemma StepKeepsInv(net: Net, root: ID, e: Event)
    requires NetInv(net, root)
    ensures NetInv(Apply(net, e), root)
  {
    match e
    case Fund(_, _, _, _) => if CanFund(net, e) { FundKeepsInv(net, root, e); }
    case Update(_, _) => if CanUpdate(net, e) { UpdateKeepsInv(net, root, e); }
    case Withdraw(_) => if CanWithdraw(net, e) { WithdrawKeepsInv(net, root, e); }
  }

  lemma {:induction false} InvOnEveryRun(net: Net, root: ID, events: seq<Event>)
    requires NetInv(net, root)
    ensures NetInv(Run(net, events), root)
  {
    if events != [] {
      InvOnEveryRun(net, root, events[..|events| - 1]);
      StepKeepsInv(Run(net, events[..|events| - 1]), root, events[|events| - 1]);
    }
  }

  // ----- conservation

  /** What the participants of a channel hold of an asset, not counting locked funds. */
  function FreeOf(n: Node, asset: nat): int {
    if asset < |n.state.alloc.balances| then Sum(n.state.alloc.balances[asset]) else 0
  }

  function FreeMap(net: Net, asset: nat): map<ID, int> {
    map id | id in net :: FreeOf(net[id], asset)
  }

  /** The participants' holdings of an asset, summed over the whole tree. */
  ghost function FreeFunds(net: Net, asset: nat): int {
    MapSum(FreeMap(net, asset))
  }

  lemma FreeAfterUpdate(net: Net, id: ID, n: Node, asset: nat)
    ensures FreeFunds(net[id := n], asset) ==
            FreeFunds(net, asset) + FreeOf(n, asset) - if id in net then FreeOf(net[id], asset) else 0
  {
    assert FreeMap(net[id := n], asset) == FreeMap(net, asset)[id := FreeOf(n, asset)];
    MapSumUpdate(FreeMap(net, asset), id, FreeOf(n, asset));
  }

  lemma FreeAfterRemoval(net: Net, id: ID, asset: nat)
    requires id in net
    ensures FreeFunds(net - {id}, asset) == FreeFunds(net, asset) - FreeOf(net[id], asset)
  {
    assert FreeMap(net - {id}, asset) == FreeMap(net, asset) - {id};
    MapSumRemove(FreeMap(net, asset), id);
  }

  lemma UpdateConserves(net: Net, e: Event, asset: nat)
    requires e.Update? && CanUpdate(net, e)
    ensures FreeFunds(Apply(net, e), asset) == FreeFunds(net, asset)
  {
    var a, b := net[e.id].state.alloc, e.next.alloc;
    FreeAfterUpdate(net, e.id, net[e.id].(state := e.next), asset);
    if asset < |a.balances| {
      assert SumAlloc(a)[asset] == SumAlloc(b)[asset];
      EqualSubAllocsSameTotal(a.locked, b.locked, asset);
    }
  }

  lemma FundConserves(net: Net, e: Event, asset: nat)
    requires e.Fund? && CanFund(net, e)
    ensures FreeFunds(Apply(net, e), asset) == FreeFunds(net, asset)
  {
    var p, child := net[e.parent], Apply(net, e)[e.child.id];
    var q := p.(state := FundState(p.state, e.child.id, e.init));
    FreeAfterUpdate(net, e.parent, q, asset);
    FreeAfterUpdate(net[e.parent := q], e.child.id, child, asset);
    if asset < |e.init.balances| {
      OperateTotals(p.state.alloc.balances, e.init.balances, asset);
    }
  }

  lemma WithdrawConserves(net: Net, root: ID, e: Event, asset: nat)
    requires NetInv(net, root) && e.Withdraw? && CanWithdraw(net, e)
    ensures FreeFunds(Apply(net, e), asset) == FreeFunds(net, asset)
  {
    WithdrawNeverPanics(net, root, e);
    ReleasedParent(net, root, e);
    var pid, sub := net[e.id].parent.value, net[e.id].state;
    var q := net[pid].(state := Released(net[pid].state, sub));
    FreeAfterUpdate(net, pid, q, asset);
    FreeAfterRemoval(net[pid := q], e.id, asset);
    if asset < |sub.alloc.balances| {
      OperateTotals(net[pid].state.alloc.balances, sub.alloc.balances, asset);
    }
  }

  /** No step changes the root's total or what the participants hold altogether. */
  lemma StepConserves(net: Net, root: ID, e: Event, asset: nat)
    requires NetInv(net, root)
    ensures root in Apply(net, e) && SumAlloc(Apply(net, e)[root].state.alloc) == SumAlloc(net[root].state.alloc)
    ensures FreeFunds(Apply(net, e), asset) == FreeFunds(net, asset)
  {
    match e
    case Fund(_, _, _, _) =>
      if CanFund(net, e) {
        assert ChannelInv(net, e.parent);
        FundedParent(net, e);
        FundConserves(net, e, asset);
      }
    case Update(_, _) =>
      if CanUpdate(net, e) {
        UpdateConserves(net, e, asset);
      }
    case Withdraw(_) =>
      if CanWithdraw(net, e) {
        ReleasedParent(net, root, e);
        WithdrawConserves(net, root, e, asset);
      }
  }

  /** A single ledger channel without locked funds. */
  predicate Opening(net: Net, root: ID) {
    && net.Keys == {root}
    && net[root].parent.None?
    && NodeInv(root, net[root])
    && net[root].state.alloc.locked == []
  }

  lemma OpeningInv(net: Net, root: ID)
    requires Opening(net, root)
    ensures NetInv(net, root)
  {
    forall id | id in net
      ensures ChannelInv(net, id)
    {
      assert id == root;
    }
  }

  lemma OpeningFree(net: Net, root: ID, asset: nat)
    requires Opening(net, root) && asset < |net[root].state.alloc.balances|
    ensures FreeFunds(net, asset) == SumAlloc(net[root].state.alloc)[asset]
  {
    FreeAfterRemoval(net, root, asset);
    assert FreeMap(net - {root}, asset) == map[];
    NothingLockedSum(net[root].state.alloc);
  }

  lemma {:induction false} RunConserves(net: Net, root: ID, events: seq<Event>, asset: nat)
    requires NetInv(net, root)
    ensures root in Run(net, events)
    ensures SumAlloc(Run(net, events)[root].state.alloc) == SumAlloc(net[root].state.alloc)
    ensures FreeFunds(Run(net, events), asset) == FreeFunds(net, asset)
  {
    if events != [] {
      RunConserves(net, root, events[..|events| - 1], asset);
      InvOnEveryRun(net, root, events[..|events| - 1]);
      StepConserves(Run(net, events[..|events| - 1]), root, events[|events| - 1], asset);
    }
  }

  /** Channel-tree conservation, for every run from a single ledger channel: every locked entry equals what
      its sub-channel holds, the root's total never changes, and the participants' holdings over the whole
      tree add up to it at all times. */
  lemma TreeConservation(net: Net, root: ID, events: seq<Event>, asset: nat)
    requires Opening(net, root) && asset < |net[root].state.alloc.balances|
    ensures var n := Run(net, events);
            && root in n
            && SumAlloc(n[root].state.alloc) == SumAlloc(net[root].state.alloc)
            && FreeFunds(n, asset) == SumAlloc(net[root].state.alloc)[asset]
            && (forall id, k :: id in n && 0 <= k < |n[id].state.alloc.locked| ==>
                  var s := n[id].state.alloc.locked[k];
                  s.id in n && n[s.id].parent == Some(id) && s.bals == SumAlloc(n[s.id].state.alloc))
  {
    OpeningInv(net, root);
    OpeningFree(net, root, asset);
    RunConserves(net, root, events, asset);
    InvOnEveryRun(net, root, events);
    var n := Run(net, events);
    forall id, k | id in n && 0 <= k < |n[id].state.alloc.locked|
      ensures EntryInv(n, id, n[id].state.alloc.locked[k])
    {
      assert ChannelInv(n, id);
    }
  }

  /** So in every run from a single ledger channel the withdrawal of a settled sub-channel hits no panic, is a
      valid transition of its parent and is caught by the peer's filter. */
  lemma WithdrawNeverPanicsOnRuns(net: Net, root: ID, events: seq<Event>, e: Event)
    requires Opening(net, root) && e.Withdraw? && CanWithdraw(Run(net, events), e)
    ensures var n := Run(net, events);
            var sub, parent := n[e.id].state, n[n[e.id].parent.value];
            && Withdrawable(parent.state, sub)
            && SameDims(sub.alloc.balances, parent.state.alloc.balances)
            && ValidTransition(parent.params, parent.state, Released(parent.state, sub))
            && SettlementFilter(parent.state, sub.id, sub.alloc.balances, Released(parent.state, sub))
  {
    OpeningInv(net, root);
    InvOnEveryRun(net, root, events);
    WithdrawNeverPanics(Run(net, events), root, e);
  }
}

/** What the filters for sub-channel fundings and settlements leave open: they look at one entry, so an update that
    passes may change others. When an accepted update keeps the tree of channels in order (client/subchannel.go,
    client/update.go). */
module TreeUpdates {
  import opened Base
  import opened Sums
  import opened Allocations
  import opened States
  import opened SubChannels
  import opened Conservation

  // ----- the invariant, read channel by channel

  /** What a Locked list says: which channel holds how much. */
  function Entries(locked: seq<SubAlloc>): set<(ID, seq<Bal>)> {
    set k | 0 <= k < |locked| :: (locked[k].id, locked[k].bals)
  }

  /** What the channels below a channel really hold. */
  function Holdings(net: Net, id: ID): set<(ID, seq<Bal>)> {
    set x | x in net && net[x].parent == Some(id) :: (x, SumAlloc(net[x].state.alloc))
  }

  predicate EntriesRight(net: Net, id: ID)
    requires id in net
  {
    DistinctIDs(net[id].state.alloc.locked) && Entries(net[id].state.alloc.locked) == Holdings(net, id)
  }

  predicate Placed(net: Net, id: ID)
    requires id in net
  {
    var n := net[id];
    && n.params.id == id && n.state.id == id && n.state.app == n.params.app && ValidAlloc(n.state.alloc)
    && (n.parent.Some? ==>
          && n.parent.value in net && n.parent.value != id
          && SameDims(n.state.alloc.balances, net[n.parent.value].state.alloc.balances))
  }

  ghost predicate Orderly(net: Net, root: ID) {
    && root in net && net[root].parent.None?
    && forall id :: id in net ==> Placed(net, id) && EntriesRight(net, id)
  }

  lemma InvEntriesRight(net: Net, root: ID, id: ID)
    requires NetInv(net, root) && id in net
    ensures Placed(net, id) && EntriesRight(net, id)
  {
    var locked := net[id].state.alloc.locked;
    assert ChannelInv(net, id);
    forall k | 0 <= k < |locked|
      ensures (locked[k].id, locked[k].bals) in Holdings(net, id) && locked[k].id != id
    {
      assert EntryInv(net, id, locked[k]);
    }
    forall x | x in net && net[x].parent == Some(id)
      ensures (x, SumAlloc(net[x].state.alloc)) in Entries(locked)
    {
      assert ChannelInv(net, x);
      var k := FindFrom(locked, x, 0).value;
      assert EntryInv(net, id, locked[k]);
    }
    assert forall k :: 0 <= k < |locked| ==> locked[k].id != id;
  }

  lemma Held(net: Net, x: ID, id: ID)
    requires x in net
    ensures net[x].parent == Some(id) ==> (x, SumAlloc(net[x].state.alloc)) in Holdings(net, id)
  {
  }

  lemma OrderlyChannel(net: Net, root: ID, id: ID)
    requires Orderly(net, root) && id in net
    ensures ChannelInv(net, id)
  {
    var locked := net[id].state.alloc.locked;
    assert Placed(net, id) && EntriesRight(net, id);
    forall k | 0 <= k < |locked|
      ensures EntryInv(net, id, locked[k])
    {
      assert (locked[k].id, locked[k].bals) in Holdings(net, id);
      assert Placed(net, locked[k].id);
    }
    if net[id].parent.Some? {
      var pid := net[id].parent.value;
      assert EntriesRight(net, pid);
      assert (id, SumAlloc(net[id].state.alloc)) in Holdings(net, pid);
      assert (id, SumAlloc(net[id].state.alloc)) in Entries(net[pid].state.alloc.locked);
    }
  }

  /** The tree invariant says of every channel that its Locked list is exactly what the channels below it hold. */
  lemma InvIffOrderly(net: Net, root: ID)
    ensures NetInv(net, root) <==> Orderly(net, root)
  {
    if NetInv(net, root) {
      forall id | id in net
        ensures Placed(net, id) && EntriesRight(net, id)
      {
        InvEntriesRight(net, root, id);
      }
    }
    if Orderly(net, root) {
      forall id | id in net
        ensures ChannelInv(net, id)
      {
        OrderlyChannel(net, root, id);
      }
    }
  }

  // ----- one channel updated

  /** The tree after an update of one channel. */
  function Updated(net: Net, id: ID, next: State): Net
    requires id in net
  {
    net[id := net[id].(state := next)]
  }

  /** A valid transition of a channel of the tree; that the dimensions stay is assumed, as of ordinary updates. */
  predicate AcceptedBy(net: Net, id: ID, next: State) {
    && id in net && ValidTransition(net[id].params, net[id].state, next)
    && SameDims(next.alloc.balances, net[id].state.alloc.balances)
  }

  /** With all other channels in order, the tree is in order exactly if this one's Locked list is right. */
  lemma DecidedBy(net: Net, root: ID, pid: ID)
    requires root in net && net[root].parent.None? && pid in net
    requires forall x :: x in net ==> Placed(net, x) && (x != pid ==> EntriesRight(net, x))
    ensures NetInv(net, root) <==> EntriesRight(net, pid)
  {
    InvIffOrderly(net, root);
  }

  // ----- funding

  /** A new channel without locked funds, of the dimensions of its parent. */
  predicate Joins(net: Net, pid: ID, id: ID, child: Node) {
    && pid in net && id !in net && child.parent == Some(pid) && NodeInv(id, child) && child.state.alloc.locked == []
    && SameDims(child.state.alloc.balances, net[pid].state.alloc.balances)
  }

  /** The parent's update passes the filter of the awaited funding. */
  predicate FundingAccepted(net: Net, pid: ID, id: ID, child: Node, next: State) {
    Joins(net, pid, id, child) && AcceptedBy(net, pid, next) && FundingFilter(net[pid].state, id, SumAlloc(child.state.alloc), next)
  }

  lemma JoinedHoldings(net: Net, root: ID, pid: ID, id: ID, child: Node, x: ID)
    requires Orderly(net, root) && Joins(net, pid, id, child)
    ensures Holdings(net[id := child], x) ==
            if x == pid then Holdings(net, pid) + {(id, SumAlloc(child.state.alloc))} else Holdings(net, x)
    ensures Holdings(net, id) == {}
  {
    forall y | y in net
      ensures net[y].parent != Some(id)
    {
      assert Placed(net, y);
    }
    var n := net[id := child];
    forall p | p in Holdings(net, x)
      ensures p in Holdings(n, x)
    {
      assert p.0 in n && n[p.0].parent == Some(x) && p.1 == SumAlloc(n[p.0].state.alloc);
    }
    forall p | p in Holdings(n, x)
      ensures p in Holdings(net, x) || (x == pid && p == (id, SumAlloc(child.state.alloc)))
    {
      assert p.0 != id ==> p.0 in net && net[p.0].parent == Some(x) && p.1 == SumAlloc(net[p.0].state.alloc);
    }
    if x == pid {
      assert id in n && n[id].parent == Some(pid);
    }
  }

  /** An accepted funding keeps the tree in order exactly if the new Locked list names no channel twice and has, besides
      the old entries, only the new one. */
  lemma FundingKeepsTreeIff(net: Net, root: ID, pid: ID, id: ID, child: Node, next: State)
    requires NetInv(net, root) && FundingAccepted(net, pid, id, child, next)
    ensures NetInv(Updated(net, pid, next)[id := child], root) <==>
              && DistinctIDs(next.alloc.locked)
              && Entries(next.alloc.locked) == Entries(net[pid].state.alloc.locked) + {(id, SumAlloc(child.state.alloc))}
  {
    InvIffOrderly(net, root);
    JoinedOrder(net, root, pid, id, child, next);
    JoinedEntries(net, root, pid, id, child, next);
  }

  lemma JoinedOrder(net: Net, root: ID, pid: ID, id: ID, child: Node, next: State)
    requires Orderly(net, root) && Joins(net, pid, id, child) && AcceptedBy(net, pid, next)
    ensures var n := Updated(net, pid, next)[id := child];
            NetInv(n, root) <==> EntriesRight(n, pid)
  {
    var n := Updated(net, pid, next)[id := child];
    forall x | x in n
      ensures Placed(n, x) && (x != pid ==> EntriesRight(n, x))
    {
      JoinedOthers(net, root, pid, id, child, next, x);
    }
    DecidedBy(n, root, pid);
  }

  lemma JoinedEntries(net: Net, root: ID, pid: ID, id: ID, child: Node, next: State)
    requires Orderly(net, root) && Joins(net, pid, id, child) && AcceptedBy(net, pid, next)
    ensures Holdings(Updated(net, pid, next)[id := child], pid) ==
            Entries(net[pid].state.alloc.locked) + {(id, SumAlloc(child.state.alloc))}
  {
    JoinedHoldings(net, root, pid, id, child, pid);
    HoldingsOfUpdated(net, pid, id, child, next, pid);
    assert EntriesRight(net, pid);
  }

  lemma HoldingsOfUpdated(net: Net, pid: ID, id: ID, child: Node, next: State, x: ID)
    requires AcceptedBy(net, pid, next) && Joins(net, pid, id, child)
    ensures Holdings(Updated(net, pid, next)[id := child], x) == Holdings(net[id := child], x)
  {
    var m, n := net[id := child], Updated(net, pid, next)[id := child];
    assert forall y :: y in m ==> SumAlloc(n[y].state.alloc) == SumAlloc(m[y].state.alloc);
  }

  lemma JoinedOthers(net: Net, root: ID, pid: ID, id: ID, child: Node, next: State, x: ID)
    requires Orderly(net, root) && Joins(net, pid, id, child) && AcceptedBy(net, pid, next)
    ensures var n := Updated(net, pid, next)[id := child];
            x in n ==> Placed(n, x) && (x != pid ==> EntriesRight(n, x))
  {
    HoldingsOfUpdated(net, pid, id, child, next, x);
    JoinedHoldings(net, root, pid, id, child, x);
    if x in net {
      assert Placed(net, x) && EntriesRight(net, x);
    }
  }

  // ----- settlement

  /** A channel below pid that holds no locked funds. */
  predicate Leaves(net: Net, pid: ID, id: ID) {
    id in net && net[id].parent == Some(pid) && pid in net && pid != id && net[id].state.alloc.locked == []
  }

  /** The parent's update passes the filter of the awaited settlement. */
  predicate SettlementAccepted(net: Net, pid: ID, id: ID, next: State) {
    Leaves(net, pid, id) && AcceptedBy(net, pid, next) && SettlementFilter(net[pid].state, id, net[id].state.alloc.balances, next)
  }

  lemma LeftHoldings(net: Net, pid: ID, id: ID, next: State, x: ID)
    requires Leaves(net, pid, id) && AcceptedBy(net, pid, next)
    ensures Holdings(Updated(net, pid, next) - {id}, x) ==
            if x == pid then Holdings(net, pid) - {(id, SumAlloc(net[id].state.alloc))} else Holdings(net, x)
  {
    var n := Updated(net, pid, next) - {id};
    assert forall y :: y in n ==> SumAlloc(n[y].state.alloc) == SumAlloc(net[y].state.alloc);
  }

  lemma LeftOthers(net: Net, root: ID, pid: ID, id: ID, next: State, x: ID)
    requires Orderly(net, root) && Leaves(net, pid, id) && AcceptedBy(net, pid, next)
    ensures var n := Updated(net, pid, next) - {id};
            x in n ==> Placed(n, x) && (x != pid ==> EntriesRight(n, x))
  {
    LeftHoldings(net, pid, id, next, x);
    if x in net {
      assert Placed(net, x) && EntriesRight(net, x) && EntriesRight(net, id);
      assert Entries(net[id].state.alloc.locked) == {};
      Held(net, x, id);
    }
  }

  /** An accepted settlement keeps the tree in order exactly if the new Locked list names no channel twice and has the
      old entries without the settled one. */
  lemma SettlementKeepsTreeIff(net: Net, root: ID, pid: ID, id: ID, next: State)
    requires NetInv(net, root) && SettlementAccepted(net, pid, id, next)
    ensures NetInv(Updated(net, pid, next) - {id}, root) <==>
              && DistinctIDs(next.alloc.locked)
              && Entries(next.alloc.locked) == Entries(net[pid].state.alloc.locked) - {(id, SumAlloc(net[id].state.alloc))}
  {
    InvIffOrderly(net, root);
    LeftOrder(net, root, pid, id, next);
    LeftHoldings(net, pid, id, next, pid);
    assert EntriesRight(net, pid);
  }

  lemma LeftOrder(net: Net, root: ID, pid: ID, id: ID, next: State)
    requires Orderly(net, root) && Leaves(net, pid, id) && AcceptedBy(net, pid, next)
    ensures var n := Updated(net, pid, next) - {id};
            NetInv(n, root) <==> EntriesRight(n, pid)
  {
    var n := Updated(net, pid, next) - {id};
    forall x | x in n
      ensures Placed(n, x) && (x != pid ==> EntriesRight(n, x))
    {
      LeftOthers(net, root, pid, id, next, x);
    }
    DecidedBy(n, root, pid);
  }

  // ----- accepted updates that break the order

  function SampleAlloc(a: Bal, b: Bal, locked: seq<SubAlloc>): Allocation {
    Allocation([[9]], [[a, b]], locked)
  }

  function SampleNode(id: ID, alloc: Allocation, parent: Option<ID>): Node {
    Node(Params(id, 1, [[10], [11]], NoApp, 0, parent.None?, false), State(id, 0, NoApp, alloc, [], false), parent)
  }

  /** A ledger channel with two sub-channels that hold 3 and 4. */
  function SampleTree(): Net {
    map[[1] := SampleNode([1], SampleAlloc(5, 5, [SubAlloc([2], [3], []), SubAlloc([3], [4], [])]), None),
        [2] := SampleNode([2], SampleAlloc(1, 2, []), Some([1])),
        [3] := SampleNode([3], SampleAlloc(2, 2, []), Some([1]))]
  }

  lemma SampleSums(a: Bal, b: Bal)
    ensures SumAlloc(SampleAlloc(a, b, [])) == [a + b]
  {
    SmallSum([a, b]);
  }

  lemma SampleLocked(a: Bal, b: Bal, locked: seq<SubAlloc>, s: SubAlloc)
    ensures SumAlloc(SampleAlloc(a, b, locked + [s])) == [SumAlloc(SampleAlloc(a, b, locked))[0] + BalAt(s, 0)]
  {
    LockedTotalSnoc(locked, s, 0);
  }

  lemma SampleRoot()
    ensures ChannelInv(SampleTree(), [1])
  {
    var net := SampleTree();
    SampleSums(1, 2);
    SampleSums(2, 2);
    var locked := net[[1]].state.alloc.locked;
    assert EntryInv(net, [1], locked[0]) && EntryInv(net, [1], locked[1]);
  }

  lemma SampleTreeInv()
    ensures NetInv(SampleTree(), [1])
  {
    SampleRoot();
  }

  lemma SampleTreeTotal()
    ensures SumAlloc(SampleTree()[[1]].state.alloc) == [17]
  {
    var x, y := SubAlloc([2], [3], []), SubAlloc([3], [4], []);
    SampleSums(5, 5);
    SampleLocked(5, 5, [], x);
    SampleLocked(5, 5, [x], y);
    assert [] + [x] == [x] && [x] + [y] == [x, y];
  }

  /** A third channel is funded with 4, while the entry of the first grows by the 2 that the second participant pays
      too much. */
  function SampleFunding(): State {
    State([1], 1, NoApp, SampleAlloc(3, 1, [SubAlloc([2], [5], []), SubAlloc([3], [4], []), SubAlloc([4], [4], [])]), [], false)
  }

  lemma SampleFundingTotal()
    ensures SumAlloc(SampleFunding().alloc) == [17]
  {
    var x, y, z := SubAlloc([2], [5], []), SubAlloc([3], [4], []), SubAlloc([4], [4], []);
    SampleSums(3, 1);
    SampleLocked(3, 1, [], x);
    SampleLocked(3, 1, [x], y);
    SampleLocked(3, 1, [x, y], z);
    assert [] + [x] == [x] && [x] + [y] == [x, y] && [x, y] + [z] == [x, y, z];
  }

  function SampleChild(): Node {
    SampleNode([4], SampleAlloc(2, 2, []), Some([1]))
  }

  lemma SampleFundingAccepted()
    ensures FundingAccepted(SampleTree(), [1], [4], SampleChild(), SampleFunding())
  {
    SampleTreeTotal();
    SampleFundingTotal();
    SampleSums(2, 2);
    var next := SampleFunding();
    assert next.alloc.locked[2].id == [4];
  }

  /** It passes the filter and is a valid transition, and the tree is no longer in order. */
  lemma SampleFundingBreaks()
    ensures NetInv(SampleTree(), [1]) && FundingAccepted(SampleTree(), [1], [4], SampleChild(), SampleFunding())
    ensures !NetInv(Updated(SampleTree(), [1], SampleFunding())[[4] := SampleChild()], [1])
  {
    SampleTreeInv();
    SampleFundingAccepted();
    FundingKeepsTreeIff(SampleTree(), [1], [1], [4], SampleChild(), SampleFunding());
    var locked := SampleFunding().alloc.locked;
    assert (locked[0].id, locked[0].bals) in Entries(locked);
  }

  /** The first channel is settled, while the entry of the second is replaced by one for a channel that does not exist. */
  function SampleSettlement(): State {
    State([1], 1, NoApp, SampleAlloc(6, 7, [SubAlloc([5], [4], [])]), [], false)
  }

  lemma SampleSettlementAccepted()
    ensures SettlementAccepted(SampleTree(), [1], [2], SampleSettlement())
  {
    SampleTreeTotal();
    SampleSums(6, 7);
    SampleLocked(6, 7, [], SubAlloc([5], [4], []));
    assert [] + [SubAlloc([5], [4], [])] == [SubAlloc([5], [4], [])];
    assert AddRow([5, 5], [1, 2]) == [6, 7];
    assert AddBalances([[5, 5]], [[1, 2]]) == [[6, 7]];
  }

  /** It passes the filter and is a valid transition, and the tree is no longer in order. */
  lemma SampleSettlementBreaks()
    ensures NetInv(SampleTree(), [1]) && SettlementAccepted(SampleTree(), [1], [2], SampleSettlement())
    ensures !NetInv(Updated(SampleTree(), [1], SampleSettlement()) - {[2]}, [1])
  {
    SampleTreeInv();
    SampleSettlementAccepted();
    SettlementKeepsTreeIff(SampleTree(), [1], [1], [2], SampleSettlement());
    var locked := SampleSettlement().alloc.locked;
    assert (locked[0].id, locked[0].bals) in Entries(locked);
  }
}

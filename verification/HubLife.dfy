/** The life of one virtual channel between the hub's other channels, read off the fields: it is funded, settled and paid
    out in both parents (client/virtual_channel.go, client/virtual_channel_settlement.go). */
module HubLife {
  import opened Base
  import opened Sums
  import opened Allocations
  import opened States
  import opened SubChannels
  import opened VirtualChannels
  import opened Hubs

  /** The parent does not lock the channel yet, and its participants have what the map takes from them. */
  predicate CanPay(parent: State, initial: State, m: seq<Index>) {
    && (forall k :: 0 <= k < |parent.alloc.locked| ==> parent.alloc.locked[k].id != initial.id)
    && |initial.alloc.balances| == |parent.alloc.balances| && TwoParty(initial.alloc.balances) && TwoParty(parent.alloc.balances)
    && TwoMap(m)
    && forall a, j :: 0 <= a < |initial.alloc.balances| && 0 <= j < 2 ==>
         initial.alloc.balances[a][j] <= parent.alloc.balances[a][m[j]]
  }

  /** A new virtual channel without locked funds, with different parents that can pay and maps that pass the matching check. */
  predicate Possible(h: Hub, initial: State, left: ID, m0: seq<Index>, right: ID, m1: seq<Index>) {
    && initial.id !in h.virtuals && initial.alloc.locked == [] && left in h.parents && right in h.parents && left != right
    && CanPay(h.parents[left], initial, m0) && CanPay(h.parents[right], initial, m1)
    && forall j :: 0 <= j < 2 ==> m0[j] == SeatOf(h, left) || m1[j] == SeatOf(h, right)
  }

  /** Nothing but balances, locked funds and the version changes. */
  predicate SameOtherwise(p: State, q: State) {
    q.id == p.id && q.app == p.app && q.data == p.data && q.isFinal == p.isFinal && q.alloc.assets == p.alloc.assets
  }

  /** Participant j of the virtual channel, at its place in the parent, has b more than before. */
  predicate Gained(p: State, q: State, b: Balances, m: seq<Index>) {
    && TwoMap(m) && TwoParty(b) && TwoParty(p.alloc.balances) && |b| == |p.alloc.balances| && SameDims(q.alloc.balances, p.alloc.balances)
    && SameOtherwise(p, q)
    && forall a, j :: 0 <= a < |b| && 0 <= j < 2 ==> q.alloc.balances[a][m[j]] - p.alloc.balances[a][m[j]] == b[a][j]
  }

  lemma TransformPlaces(b: Balances, m: seq<Index>)
    requires TwoParty(b) && TwoMap(m)
    ensures forall a, j :: 0 <= a < |b| && 0 <= j < 2 ==> Transform(b, 2, m)[a][m[j]] == b[a][j]
  {
    forall a, j | 0 <= a < |b| && 0 <= j < 2
      ensures Transform(b, 2, m)[a][m[j]] == b[a][j]
    {
      ScatterAt(b[a], 2, m, 2);
    }
  }

  /** In a parent that can pay, the hub accepts, and each participant pays at its place. */
  lemma FundingPays(h: Hub, e: Event)
    requires e.Fund? && e.id in h.virtuals
    requires var v := h.virtuals[e.id];
             var s := SideOf(v, e.onLeft);
             v.initial.id == e.id && s.phase.Waiting? && s.parent in h.parents && CanPay(h.parents[s.parent], v.initial, s.indexMap)
    ensures CanFund(h, e)
    ensures var v := h.virtuals[e.id];
            var s := SideOf(v, e.onLeft);
            Gained(FundedParent(h, e), h.parents[s.parent], v.initial.alloc.balances, s.indexMap)
  {
    var v := h.virtuals[e.id];
    var s := SideOf(v, e.onLeft);
    var b, parent := v.initial.alloc.balances, h.parents[s.parent].alloc.balances;
    TransformPlaces(b, s.indexMap);
    var t := Transform(b, 2, s.indexMap);
    forall a, u | 0 <= a < |t| && 0 <= u < |t[a]|
      ensures t[a][u] <= parent[a][u]
    {
      var j := if s.indexMap[0] == u then 0 else 1;
      assert s.indexMap[j] == u && b[a][j] <= parent[a][s.indexMap[j]];
    }
  }

  lemma SettlingPays(h: Hub, e: Event)
    requires HubInv(h, true) && e.Settle? && e.id in h.virtuals
    requires h.virtuals[e.id].final.Some? && SideOf(h.virtuals[e.id], e.onLeft).phase.Open?
    ensures CanSettle(h, e)
    ensures var v := h.virtuals[e.id];
            var s := SideOf(v, e.onLeft);
            && EntryMap(h.parents[s.parent], e.id) == s.indexMap
            && Gained(h.parents[s.parent], SettledParent(h, e), v.final.value.alloc.balances, s.indexMap)
  {
    var v := h.virtuals[e.id];
    var s := SideOf(v, e.onLeft);
    assert VirtualInv(h, e.id, v, true) && ParentInv(h, s.parent);
    TransformPlaces(v.final.value.alloc.balances, s.indexMap);
  }

  function Life(initial: State, left: ID, m0: seq<Index>, right: ID, m1: seq<Index>, final: State): seq<Event> {
    [Event.Match(initial, left, m0, right, m1), Event.Fund(initial.id, true), Event.Fund(initial.id, false),
     Event.Finish(initial.id, final), Event.Settle(initial.id, true), Event.Settle(initial.id, false)]
  }

  lemma LifeSteps(h: Hub, es: seq<Event>)
    requires |es| == 6
    ensures Run(h, es) == Apply(Apply(Apply(Apply(Apply(Apply(h, es[0]), es[1]), es[2]), es[3]), es[4]), es[5])
  {
    RunFirst(h, es, 0);
    RunFirst(h, es, 1);
    RunFirst(h, es, 2);
    RunFirst(h, es, 3);
    RunFirst(h, es, 4);
    RunFirst(h, es, 5);
    assert es[..6] == es && es[..0] == [];
  }

  lemma RunFirst(h: Hub, es: seq<Event>, k: nat)
    requires k < |es|
    ensures Run(h, es[..k + 1]) == Apply(Run(h, es[..k]), es[k])
  {
    assert es[..k + 1][..k] == es[..k];
  }

  /** After matching and funding both sides. */
  ghost predicate Opened(h: Hub, n: Hub, initial: State, left: ID, m0: seq<Index>, right: ID, m1: seq<Index>) {
    && left in h.parents && right in h.parents && left in n.parents && right in n.parents
    && n.parents == h.parents[left := n.parents[left]][right := n.parents[right]] && n.seats == h.seats
    && n.virtuals == h.virtuals[initial.id := Virtual(initial, None, Side(left, m0, Open), Side(right, m1, Open))]
    && Gained(n.parents[left], h.parents[left], initial.alloc.balances, m0)
    && Gained(n.parents[right], h.parents[right], initial.alloc.balances, m1)
  }

  lemma FundStep(h: Hub, id: ID, onLeft: bool)
    requires id in h.virtuals
    requires var v := h.virtuals[id];
             var s := SideOf(v, onLeft);
             v.initial.id == id && s.phase.Waiting? && s.parent in h.parents && CanPay(h.parents[s.parent], v.initial, s.indexMap)
    ensures var n := Apply(h, Event.Fund(id, onLeft));
            var v := h.virtuals[id];
            var s := SideOf(v, onLeft);
            && s.parent in n.parents && n.parents == h.parents[s.parent := n.parents[s.parent]] && n.seats == h.seats
            && n.virtuals == h.virtuals[id := WithSide(v, onLeft, s.(phase := Open))]
            && Gained(n.parents[s.parent], h.parents[s.parent], v.initial.alloc.balances, s.indexMap)
  {
    FundingPays(h, Event.Fund(id, onLeft));
  }

  lemma MatchStep(h: Hub, initial: State, left: ID, m0: seq<Index>, right: ID, m1: seq<Index>)
    requires Possible(h, initial, left, m0, right, m1)
    ensures Apply(h, Event.Match(initial, left, m0, right, m1)) ==
            h.(virtuals := h.virtuals[initial.id := Virtual(initial, None, Side(left, m0, Waiting), Side(right, m1, Waiting))])
  {
    assert HubCovers(m0, SeatOf(h, left), m1, SeatOf(h, right));
  }

  lemma Opening(h: Hub, initial: State, left: ID, m0: seq<Index>, right: ID, m1: seq<Index>)
    requires Possible(h, initial, left, m0, right, m1)
    ensures var h1 := Apply(h, Event.Match(initial, left, m0, right, m1));
            var h3 := Apply(Apply(h1, Event.Fund(initial.id, true)), Event.Fund(initial.id, false));
            Opened(h, h3, initial, left, m0, right, m1)
  {
    MatchStep(h, initial, left, m0, right, m1);
    var h1 := Apply(h, Event.Match(initial, left, m0, right, m1));
    FundStep(h1, initial.id, true);
    FundStep(Apply(h1, Event.Fund(initial.id, true)), initial.id, false);
  }

  lemma ThreeKeepInv(h: Hub, a: Event, b: Event, c: Event)
    requires HubInv(h, true) && !a.Pay? && !b.Pay? && !c.Pay?
    ensures HubInv(Apply(h, a), true) && HubInv(Apply(Apply(h, a), b), true) && HubInv(Apply(Apply(Apply(h, a), b), c), true)
  {
    StepKeepsInv(h, a, true);
    StepKeepsInv(Apply(h, a), b, true);
    StepKeepsInv(Apply(Apply(h, a), b), c, true);
  }

  /** After settling both sides. */
  ghost predicate PaidOut(n: Hub, o: Hub, id: ID, final: State) {
    && id in n.virtuals
    && var v := n.virtuals[id];
       && v.left.parent in n.parents && v.right.parent in n.parents && v.left.parent in o.parents && v.right.parent in o.parents
       && o.parents == n.parents[v.left.parent := o.parents[v.left.parent]][v.right.parent := o.parents[v.right.parent]] && o.seats == n.seats
       && o.virtuals == n.virtuals[id := Virtual(v.initial, Some(final), v.left.(phase := Closed(v.left.indexMap)),
                                                 v.right.(phase := Closed(v.right.indexMap)))]
       && Gained(n.parents[v.left.parent], o.parents[v.left.parent], final.alloc.balances, v.left.indexMap)
       && Gained(n.parents[v.right.parent], o.parents[v.right.parent], final.alloc.balances, v.right.indexMap)
  }

  lemma SettleStep(h: Hub, id: ID, onLeft: bool)
    requires HubInv(h, true) && id in h.virtuals && h.virtuals[id].final.Some? && SideOf(h.virtuals[id], onLeft).phase.Open?
    ensures var n := Apply(h, Event.Settle(id, onLeft));
            var v := h.virtuals[id];
            var s := SideOf(v, onLeft);
            && s.parent in h.parents && s.parent in n.parents
            && n.parents == h.parents[s.parent := n.parents[s.parent]] && n.seats == h.seats
            && n.virtuals == h.virtuals[id := WithSide(v, onLeft, s.(phase := Closed(s.indexMap)))]
            && Gained(h.parents[s.parent], n.parents[s.parent], v.final.value.alloc.balances, s.indexMap)
  {
    SettlingPays(h, Event.Settle(id, onLeft));
    assert VirtualInv(h, id, h.virtuals[id], true);
  }

  lemma PayingOut(h: Hub, id: ID, final: State)
    requires HubInv(h, true) && id in h.virtuals
    requires var v := h.virtuals[id];
             v.final.None? && v.left.phase.Open? && v.right.phase.Open? && v.left.parent != v.right.parent && FinalOf(id, v.initial, final)
    ensures var h1 := Apply(h, Event.Finish(id, final));
            PaidOut(h, Apply(Apply(h1, Event.Settle(id, true)), Event.Settle(id, false)), id, final)
  {
    ThreeKeepInv(h, Event.Finish(id, final), Event.Settle(id, true), Event.Settle(id, false));
    var h1 := Apply(h, Event.Finish(id, final));
    SettleStep(h1, id, true);
    SettleStep(Apply(h1, Event.Settle(id, true)), id, false);
  }

  /** In a parent, each participant of the virtual channel has gained at its place what it gained in the virtual channel. */
  predicate NetGain(p: State, q: State, initial: Balances, final: Balances, m: seq<Index>) {
    && SameOtherwise(p, q) && TwoMap(m) && |initial| == |final| == |p.alloc.balances| == |q.alloc.balances|
    && TwoParty(initial) && TwoParty(final) && TwoParty(p.alloc.balances) && TwoParty(q.alloc.balances)
    && forall a, j :: 0 <= a < |initial| && 0 <= j < 2 ==>
         q.alloc.balances[a][m[j]] - p.alloc.balances[a][m[j]] == final[a][j] - initial[a][j]
  }

  ghost predicate Lived(h: Hub, n: Hub, initial: State, left: ID, m0: seq<Index>, right: ID, m1: seq<Index>, final: State) {
    && left in h.parents && right in h.parents && left in n.parents && right in n.parents
    && NetGain(h.parents[left], n.parents[left], initial.alloc.balances, final.alloc.balances, m0)
    && NetGain(h.parents[right], n.parents[right], initial.alloc.balances, final.alloc.balances, m1)
    && (forall p :: p in h.parents && p != left && p != right ==> p in n.parents && n.parents[p] == h.parents[p])
    && initial.id in n.virtuals && Completed(n.virtuals[initial.id])
    && (forall id :: id in h.virtuals && id != initial.id ==> id in n.virtuals && n.virtuals[id] == h.virtuals[id])
  }

  lemma OpenedThenPaid(h: Hub, n: Hub, o: Hub, initial: State, left: ID, m0: seq<Index>, right: ID, m1: seq<Index>, final: State)
    requires Opened(h, n, initial, left, m0, right, m1) && PaidOut(n, o, initial.id, final) && left != right
    ensures Lived(h, o, initial, left, m0, right, m1, final)
  {
  }

  /** Every possible virtual channel can be opened between the hub's other channels and brought to any final division of its funds:
      then each of its participants has in both parents, at its place, what it gained, and no other parent has changed. */
  lemma VirtualChannelLives(h: Hub, initial: State, left: ID, m0: seq<Index>, right: ID, m1: seq<Index>, final: State)
    requires HubInv(h, true) && Possible(h, initial, left, m0, right, m1) && FinalOf(initial.id, initial, final)
    ensures Lived(h, Run(h, Life(initial, left, m0, right, m1, final)), initial, left, m0, right, m1, final)
  {
    var es := Life(initial, left, m0, right, m1, final);
    LifeSteps(h, es);
    Opening(h, initial, left, m0, right, m1);
    ThreeKeepInv(h, es[0], es[1], es[2]);
    var n := Apply(Apply(Apply(h, es[0]), es[1]), es[2]);
    PayingOut(n, initial.id, final);
    OpenedThenPaid(h, n, Run(h, es), initial, left, m0, right, m1, final);
  }
}

/** The hub over every run: several virtual channels are matched, funded, settled side by side in its parent channels,
    with payments in between (client/virtual_channel.go, client/virtual_channel_settlement.go, client/update.go). */
module Hubs {
  import opened Base
  import opened Sums
  import opened Allocations
  import opened States
  import opened SubChannels
  import opened VirtualChannels

  datatype Phase = Waiting | Open | Closed(settled: seq<Index>)

  /** One of the two parents of a virtual channel, the map it is funded with, and how far it is. */
  datatype Side = Side(parent: ID, indexMap: seq<Index>, phase: Phase)

  datatype Virtual = Virtual(initial: State, final: Option<State>, left: Side, right: Side)

  /** The states of the hub's parent channels, its place in each of them, and the virtual channels it matched. */
  datatype Hub = Hub(parents: map<ID, State>, seats: map<ID, Index>, virtuals: map<ID, Virtual>)

  datatype Event =
    | Match(initial: State, left: ID, leftMap: seq<Index>, right: ID, rightMap: seq<Index>)
    | Fund(id: ID, onLeft: bool)
    | Pay(parent: ID, next: State)
    | Finish(id: ID, final: State)
    | Settle(id: ID, onLeft: bool)

  function SideOf(v: Virtual, onLeft: bool): Side {
    if onLeft then v.left else v.right
  }

  function WithSide(v: Virtual, onLeft: bool, s: Side): Virtual {
    if onLeft then v.(left := s) else v.(right := s)
  }

  function SeatOf(h: Hub, parent: ID): Index {
    if parent in h.seats then h.seats[parent] else 0
  }

  /** All rows are for two participants. */
  predicate TwoParty(b: Balances) {
    forall a :: 0 <= a < |b| ==> |b[a]| == 2
  }

  /** The map can be applied to two participants; a shorter one leaves somebody out. */
  predicate Applicable(m: seq<Index>) {
    |m| <= 2 && InRange(m, 2)
  }

  predicate TwoMap(m: seq<Index>) {
    |m| == 2 && GoodMap(m, 2)
  }

  // ----- steps

  /** Two funding proposals with the same initial state in different parents pass the matching check. */
  predicate CanMatch(h: Hub, e: Event)
    requires e.Match?
  {
    && e.initial.id !in h.virtuals && e.left in h.parents && e.right in h.parents && e.left != e.right
    && TwoParty(e.initial.alloc.balances) && e.initial.alloc.locked == []
    && TwoMap(e.leftMap) && TwoMap(e.rightMap)
    && HubCovers(e.leftMap, SeatOf(h, e.left), e.rightMap, SeatOf(h, e.right))
  }

  /** The hub accepts a matched proposal: the channel is not locked in this parent, which has the funds. */
  predicate CanFund(h: Hub, e: Event)
    requires e.Fund?
  {
    && e.id in h.virtuals
    && var v := h.virtuals[e.id];
       var s := SideOf(v, e.onLeft);
       && s.phase.Waiting? && s.parent in h.parents && TwoMap(s.indexMap) && TwoParty(v.initial.alloc.balances)
       && FindSubAlloc(h.parents[s.parent].alloc, e.id).None?
       && GreaterOrEqual(h.parents[s.parent].alloc.balances, Transform(v.initial.alloc.balances, 2, s.indexMap))
  }

  /** An ordinary update of a parent keeps its totals and, index maps aside, its sub-allocations; that the dimensions stay
      is assumed of the run. */
  predicate CanPay(h: Hub, e: Event)
    requires e.Pay?
  {
    && e.parent in h.parents
    && SumAlloc(h.parents[e.parent].alloc) == SumAlloc(e.next.alloc)
    && SubAllocsEqual(h.parents[e.parent].alloc.locked, e.next.alloc.locked)
    && SameDims(e.next.alloc.balances, h.parents[e.parent].alloc.balances)
  }

  /** A state of the channel that locks nothing and divides the same totals. */
  predicate FinalOf(id: ID, initial: State, final: State) {
    && final.id == id && SameDims(final.alloc.balances, initial.alloc.balances) && final.alloc.locked == []
    && SumAlloc(final.alloc) == SumAlloc(initial.alloc)
  }

  /** Two settlement proposals with the same final state match; both parents were funded. */
  predicate CanFinish(h: Hub, e: Event)
    requires e.Finish?
  {
    && e.id in h.virtuals
    && var v := h.virtuals[e.id];
       v.final.None? && v.left.phase.Open? && v.right.phase.Open? && FinalOf(e.id, v.initial, e.final)
  }

  /** The map in a parent's entry for a channel. */
  function EntryMap(s: State, id: ID): seq<Index> {
    var entry := FindSubAlloc(s.alloc, id);
    if entry.Some? then entry.value.indexMap else []
  }

  /** The hub accepts a matched settlement; a map that cannot be applied is refused. */
  predicate CanSettle(h: Hub, e: Event)
    requires e.Settle?
  {
    && e.id in h.virtuals
    && var v := h.virtuals[e.id];
       var s := SideOf(v, e.onLeft);
       && s.phase.Open? && s.parent in h.parents && v.final.Some? && TwoParty(v.final.value.alloc.balances)
       && var parent := h.parents[s.parent];
          && FindSubAlloc(parent.alloc, e.id).Some?
          && Applicable(EntryMap(parent, e.id))
          && SameDims(Transform(v.final.value.alloc.balances, 2, EntryMap(parent, e.id)), parent.alloc.balances)
  }

  function FundedParent(h: Hub, e: Event): State
    requires e.Fund? && CanFund(h, e)
  {
    var v := h.virtuals[e.id];
    var s := SideOf(v, e.onLeft);
    VirtualFundState(h.parents[s.parent], e.id, Transform(v.initial.alloc.balances, 2, s.indexMap), s.indexMap)
  }

  function SettledParent(h: Hub, e: Event): State
    requires e.Settle? && CanSettle(h, e)
  {
    var v := h.virtuals[e.id];
    var parent := h.parents[SideOf(v, e.onLeft).parent];
    VirtualWithdrawState(parent, Transform(v.final.value.alloc.balances, 2, EntryMap(parent, e.id)), FindFrom(parent.alloc.locked, e.id, 0).value)
  }

  function Apply(h: Hub, e: Event): Hub {
    match e
    case Match(initial, left, leftMap, right, rightMap) =>
      if !CanMatch(h, e) then h
      else h.(virtuals := h.virtuals[initial.id := Virtual(initial, None, Side(left, leftMap, Waiting), Side(right, rightMap, Waiting))])
    case Fund(id, onLeft) =>
      if !CanFund(h, e) then h
      else
        var v := h.virtuals[id];
        var s := SideOf(v, onLeft);
        h.(parents := h.parents[s.parent := FundedParent(h, e)],
           virtuals := h.virtuals[id := WithSide(v, onLeft, s.(phase := Open))])
    case Pay(parent, next) =>
      if !CanPay(h, e) then h else h.(parents := h.parents[parent := next])
    case Finish(id, final) =>
      if !CanFinish(h, e) then h else h.(virtuals := h.virtuals[id := h.virtuals[id].(final := Some(final))])
    case Settle(id, onLeft) =>
      if !CanSettle(h, e) then h
      else
        var v := h.virtuals[id];
        var s := SideOf(v, onLeft);
        h.(parents := h.parents[s.parent := SettledParent(h, e)],
           virtuals := h.virtuals[id := WithSide(v, onLeft, s.(phase := Closed(EntryMap(h.parents[s.parent], id))))])
  }

  function Run(h: Hub, events: seq<Event>): Hub {
    if events == [] then h else Apply(Run(h, events[..|events| - 1]), events[|events| - 1])
  }

  // ----- the hub's holdings

  /** A participant's balance of an asset. */
  function HeldIn(s: State, seat: Index, asset: nat): int {
    if asset < |s.alloc.balances| && seat < |s.alloc.balances[asset]| then s.alloc.balances[asset][seat] else 0
  }

  /** What a map brings of a state's balances to a place. */
  function Share(s: State, m: seq<Index>, seat: Index, asset: nat): int {
    if asset < |s.alloc.balances| && |s.alloc.balances[asset]| == 2 && Applicable(m) && seat < 2
    then Scatter(s.alloc.balances[asset], 2, m, |m|)[seat] else 0
  }

  /** What the hub has paid into a virtual channel on one side and has not got back. */
  function SideOutstanding(v: Virtual, s: Side, seat: Index, asset: nat): int {
    match s.phase
    case Waiting => 0
    case Open => Share(v.initial, s.indexMap, seat, asset)
    case Closed(m) => Share(v.initial, s.indexMap, seat, asset) - if v.final.Some? then Share(v.final.value, m, seat, asset) else 0
  }

  function Outstanding(h: Hub, v: Virtual, asset: nat): int {
    SideOutstanding(v, v.left, SeatOf(h, v.left.parent), asset) + SideOutstanding(v, v.right, SeatOf(h, v.right.parent), asset)
  }

  function HoldingsMap(h: Hub, asset: nat): map<ID, int> {
    map p | p in h.parents :: HeldIn(h.parents[p], SeatOf(h, p), asset)
  }

  function OutstandingMap(h: Hub, asset: nat): map<ID, int> {
    map id | id in h.virtuals :: Outstanding(h, h.virtuals[id], asset)
  }

  /** The hub's balances over all its parents. */
  ghost function Holdings(h: Hub, asset: nat): int {
    MapSum(HoldingsMap(h, asset))
  }

  /** What is outstanding over all virtual channels. */
  ghost function AllOutstanding(h: Hub, asset: nat): int {
    MapSum(OutstandingMap(h, asset))
  }

  /** What the hub gains by an ordinary update. */
  function Gain(h: Hub, e: Event, asset: nat): int {
    if e.Pay? && CanPay(h, e)
    then HeldIn(e.next, SeatOf(h, e.parent), asset) - HeldIn(h.parents[e.parent], SeatOf(h, e.parent), asset)
    else 0
  }

  function Gains(h: Hub, events: seq<Event>, asset: nat): int {
    if events == [] then 0
    else
      var before := events[..|events| - 1];
      Gains(h, before, asset) + Gain(Run(h, before), events[|events| - 1], asset)
  }

  // ----- what every run keeps

  /** An open side has its entry in the parent, with the funds of the channel; with kept maps it also has its map. */
  predicate SideInv(h: Hub, id: ID, v: Virtual, s: Side, maps: bool) {
    && s.parent in h.parents && TwoMap(s.indexMap)
    && (s.phase.Open? ==>
          var entry := FindSubAlloc(h.parents[s.parent].alloc, id);
          && entry.Some? && entry.value.bals == SumAlloc(v.initial.alloc)
          && (maps ==> entry.value.indexMap == s.indexMap)
          && SameDims(v.initial.alloc.balances, h.parents[s.parent].alloc.balances))
    && (s.phase.Closed? ==> v.final.Some? && Applicable(s.phase.settled) && (maps ==> s.phase.settled == s.indexMap))
  }

  predicate VirtualInv(h: Hub, id: ID, v: Virtual, maps: bool) {
    && TwoParty(v.initial.alloc.balances) && v.initial.alloc.locked == [] && v.left.parent != v.right.parent
    && SideInv(h, id, v, v.left, maps) && SideInv(h, id, v, v.right, maps)
    && HubCovers(v.left.indexMap, SeatOf(h, v.left.parent), v.right.indexMap, SeatOf(h, v.right.parent))
    && (v.final.Some? ==> FinalOf(id, v.initial, v.final.value) && !v.left.phase.Waiting? && !v.right.phase.Waiting?)
  }

  predicate ParentInv(h: Hub, p: ID)
    requires p in h.parents
  {
    SeatOf(h, p) < 2 && TwoParty(h.parents[p].alloc.balances)
  }

  ghost predicate HubInv(h: Hub, maps: bool) {
    && (forall p :: p in h.parents ==> ParentInv(h, p))
    && (forall id :: id in h.virtuals ==> VirtualInv(h, id, h.virtuals[id], maps))
  }

  /** In another state of a parent a channel that was locked is still locked with the same amount, and map. */
  predicate KeepsEntry(before: State, after: State, id: ID, maps: bool) {
    var was, now := FindSubAlloc(before.alloc, id), FindSubAlloc(after.alloc, id);
    && SameDims(after.alloc.balances, before.alloc.balances)
    && (was.Some? ==> now.Some? && now.value.bals == was.value.bals && (maps ==> now.value.indexMap == was.value.indexMap))
  }

  /** The step is no update that rewrites an index map. */
  predicate KeepsMaps(h: Hub, e: Event) {
    e.Pay? && CanPay(h, e) ==> e.next.alloc.locked == h.parents[e.parent].alloc.locked
  }

  lemma PayKeepsEntry(h: Hub, e: Event, id: ID, maps: bool)
    requires e.Pay? && CanPay(h, e) && (maps ==> KeepsMaps(h, e))
    ensures KeepsEntry(h.parents[e.parent], e.next, id, maps)
  {
    var a, b := h.parents[e.parent].alloc, e.next.alloc;
    if FindSubAlloc(a, id).Some? {
      SameFirst(a.locked, b.locked, id);
    }
  }

  lemma SameFirst(a: seq<SubAlloc>, b: seq<SubAlloc>, id: ID)
    requires SubAllocsEqual(a, b) && FindFrom(a, id, 0).Some?
    ensures FindFrom(b, id, 0) == FindFrom(a, id, 0) && b[FindFrom(a, id, 0).value].bals == a[FindFrom(a, id, 0).value].bals
  {
    var k := FindFrom(a, id, 0).value;
    assert SubAllocEqual(a[k], b[k]);
    assert forall i :: 0 <= i < k ==> SubAllocEqual(a[i], b[i]);
  }

  lemma AppendKeepsFirst(a: seq<SubAlloc>, s: SubAlloc, id: ID)
    ensures FindFrom(a, id, 0).Some? ==> FindFrom(a + [s], id, 0) == FindFrom(a, id, 0)
    ensures FindFrom(a, id, 0).None? && s.id == id ==> FindFrom(a + [s], id, 0) == Some(|a|)
  {
    var b := a + [s];
    if FindFrom(a, id, 0).Some? {
      assert b[FindFrom(a, id, 0).value].id == id;
    } else if s.id == id {
      assert b[|a|].id == id;
    }
  }

  lemma RemovalKeepsFirst(a: seq<SubAlloc>, k: nat, id: ID)
    requires k < |a| && a[k].id != id && FindFrom(a, id, 0).Some?
    ensures var b, i := a[..k] + a[k + 1..], FindFrom(a, id, 0).value;
            FindFrom(b, id, 0) == Some(if i < k then i else i - 1) && b[if i < k then i else i - 1] == a[i]
  {
    var b, i := a[..k] + a[k + 1..], FindFrom(a, id, 0).value;
    assert b[if i < k then i else i - 1] == a[i];
    assert forall j :: 0 <= j < |b| ==> b[j] == a[if j < k then j else j + 1];
  }

  /** Funding a channel locks its funds under its map and leaves the other entries alone. */
  lemma FundKeepsEntry(h: Hub, e: Event, id: ID, maps: bool)
    requires e.Fund? && CanFund(h, e)
    ensures KeepsEntry(h.parents[SideOf(h.virtuals[e.id], e.onLeft).parent], FundedParent(h, e), id, maps)
  {
    var s := SideOf(h.virtuals[e.id], e.onLeft);
    var a, b := h.parents[s.parent].alloc, FundedParent(h, e).alloc;
    AppendKeepsFirst(a.locked, b.locked[|a.locked|], id);
  }

  lemma FundAddsEntry(h: Hub, e: Event)
    requires e.Fund? && CanFund(h, e) && Injective(SideOf(h.virtuals[e.id], e.onLeft).indexMap)
    requires h.virtuals[e.id].initial.alloc.locked == []
    ensures var v := h.virtuals[e.id];
            FindSubAlloc(FundedParent(h, e).alloc, e.id) == Some(SubAlloc(e.id, SumAlloc(v.initial.alloc), SideOf(v, e.onLeft).indexMap))
  {
    var v := h.virtuals[e.id];
    var s := SideOf(v, e.onLeft);
    var a, b := h.parents[s.parent].alloc, FundedParent(h, e).alloc;
    AppendKeepsFirst(a.locked, b.locked[|a.locked|], e.id);
    TransferKeepsTotals(v.initial.alloc.balances, 2, s.indexMap);
    NothingLockedSum(v.initial.alloc);
  }

  lemma SettleKeepsEntry(h: Hub, e: Event, id: ID, maps: bool)
    requires e.Settle? && CanSettle(h, e) && id != e.id
    ensures KeepsEntry(h.parents[SideOf(h.virtuals[e.id], e.onLeft).parent], SettledParent(h, e), id, maps)
  {
    var a := h.parents[SideOf(h.virtuals[e.id], e.onLeft).parent].alloc;
    if FindSubAlloc(a, id).Some? {
      RemovalKeepsFirst(a.locked, FindFrom(a.locked, e.id, 0).value, id);
    }
  }

  /** A virtual channel does not notice another state of a parent that keeps its entry. */
  lemma ParentReplaced(h: Hub, p: ID, next: State, id: ID, v: Virtual, maps: bool)
    requires VirtualInv(h, id, v, maps) && p in h.parents && KeepsEntry(h.parents[p], next, id, maps)
    ensures VirtualInv(h.(parents := h.parents[p := next]), id, v, maps)
  {
  }

  /** Only the parents and the hub's places matter to a virtual channel. */
  lemma SamePlaces(h: Hub, n: Hub, maps: bool)
    requires HubInv(h, maps) && n.parents == h.parents && n.seats == h.seats
    ensures forall p :: p in n.parents ==> ParentInv(n, p)
    ensures forall id :: id in h.virtuals ==> VirtualInv(n, id, h.virtuals[id], maps)
  {
    forall p | p in n.parents
      ensures ParentInv(n, p)
    {
      assert ParentInv(h, p);
    }
    forall id | id in h.virtuals
      ensures VirtualInv(n, id, h.virtuals[id], maps)
    {
      assert VirtualInv(h, id, h.virtuals[id], maps);
    }
  }

  lemma MatchInv(h: Hub, e: Event, maps: bool)
    requires HubInv(h, maps) && e.Match? && CanMatch(h, e)
    ensures HubInv(Apply(h, e), maps)
  {
    var n := Apply(h, e);
    SamePlaces(h, n, maps);
    assert VirtualInv(n, e.initial.id, n.virtuals[e.initial.id], maps);
  }

  lemma FundInv(h: Hub, e: Event, maps: bool)
    requires HubInv(h, maps) && e.Fund? && CanFund(h, e)
    ensures HubInv(Apply(h, e), maps)
  {
    var n := Apply(h, e);
    var p, next := SideOf(h.virtuals[e.id], e.onLeft).parent, FundedParent(h, e);
    ParentsKept(h, n, p, next);
    FundedOwn(h, e, maps);
    var mid := h.(parents := h.parents[p := next]);
    forall id | id in n.virtuals
      ensures VirtualInv(n, id, n.virtuals[id], maps)
    {
      if id != e.id {
        FundKeepsEntry(h, e, id, maps);
        ParentReplaced(h, p, next, id, h.virtuals[id], maps);
        SameParentsInv(mid, n, id, h.virtuals[id], maps);
      }
    }
  }

  /** The side that was funded has its entry now; the other side is in another parent. */
  lemma FundedOwn(h: Hub, e: Event, maps: bool)
    requires e.Fund? && CanFund(h, e) && VirtualInv(h, e.id, h.virtuals[e.id], maps)
    ensures VirtualInv(Apply(h, e), e.id, Apply(h, e).virtuals[e.id], maps)
  {
    FundAddsEntry(h, e);
  }

  lemma ParentsKept(h: Hub, n: Hub, p: ID, next: State)
    requires p in h.parents && n.parents == h.parents[p := next] && n.seats == h.seats
    requires SameDims(next.alloc.balances, h.parents[p].alloc.balances)
    requires forall x :: x in h.parents ==> ParentInv(h, x)
    ensures forall x :: x in n.parents ==> ParentInv(n, x)
  {
    forall x | x in n.parents
      ensures ParentInv(n, x)
    {
      assert ParentInv(h, x);
    }
  }

  lemma PayInv(h: Hub, e: Event, maps: bool)
    requires HubInv(h, maps) && e.Pay? && CanPay(h, e) && (maps ==> KeepsMaps(h, e))
    ensures HubInv(Apply(h, e), maps)
  {
    var n := Apply(h, e);
    ParentsKept(h, n, e.parent, e.next);
    forall id | id in n.virtuals
      ensures VirtualInv(n, id, n.virtuals[id], maps)
    {
      PayKeepsEntry(h, e, id, maps);
      ParentReplaced(h, e.parent, e.next, id, h.virtuals[id], maps);
    }
  }

  lemma FinishInv(h: Hub, e: Event, maps: bool)
    requires HubInv(h, maps) && e.Finish? && CanFinish(h, e)
    ensures HubInv(Apply(h, e), maps)
  {
    var n := Apply(h, e);
    SamePlaces(h, n, maps);
    FinishedInv(n, e.id, h.virtuals[e.id], e.final, maps);
  }

  lemma FinishedInv(h: Hub, id: ID, v: Virtual, final: State, maps: bool)
    requires VirtualInv(h, id, v, maps) && v.left.phase.Open? && v.right.phase.Open? && FinalOf(id, v.initial, final)
    ensures VirtualInv(h, id, v.(final := Some(final)), maps)
  {
  }

  /** The side that was settled needs its entry no more; the other side is in another parent. */
  lemma SettledOwn(h: Hub, e: Event, maps: bool)
    requires e.Settle? && CanSettle(h, e) && VirtualInv(h, e.id, h.virtuals[e.id], maps)
    ensures VirtualInv(Apply(h, e), e.id, Apply(h, e).virtuals[e.id], maps)
  {
  }

  lemma SettleInv(h: Hub, e: Event, maps: bool)
    requires HubInv(h, maps) && e.Settle? && CanSettle(h, e)
    ensures HubInv(Apply(h, e), maps)
  {
    var n := Apply(h, e);
    var p, next := SideOf(h.virtuals[e.id], e.onLeft).parent, SettledParent(h, e);
    ParentsKept(h, n, p, next);
    SettledOwn(h, e, maps);
    var mid := h.(parents := h.parents[p := next]);
    forall id | id in n.virtuals
      ensures VirtualInv(n, id, n.virtuals[id], maps)
    {
      if id != e.id {
        SettleKeepsEntry(h, e, id, maps);
        ParentReplaced(h, p, next, id, h.virtuals[id], maps);
        SameParentsInv(mid, n, id, h.virtuals[id], maps);
      }
    }
  }

  lemma SameParentsInv(h: Hub, n: Hub, id: ID, v: Virtual, maps: bool)
    requires VirtualInv(h, id, v, maps) && n.parents == h.parents && n.seats == h.seats
    ensures VirtualInv(n, id, v, maps)
  {
  }

  /** Every step keeps the hub's channels in order, and their maps unless an update rewrites one. */
  lemma StepKeepsInv(h: Hub, e: Event, maps: bool)
    requires HubInv(h, maps) && (maps ==> KeepsMaps(h, e))
    ensures HubInv(Apply(h, e), maps)
  {
    match e
    case Match(_, _, _, _, _) => if CanMatch(h, e) { MatchInv(h, e, maps); }
    case Fund(_, _) => if CanFund(h, e) { FundInv(h, e, maps); }
    case Pay(_, _) => if CanPay(h, e) { PayInv(h, e, maps); }
    case Finish(_, _) => if CanFinish(h, e) { FinishInv(h, e, maps); }
    case Settle(_, _) => if CanSettle(h, e) { SettleInv(h, e, maps); }
  }

  // ----- conservation

  lemma ParentChange(h: Hub, n: Hub, p: ID, asset: nat)
    requires p in h.parents && n.seats == h.seats && p in n.parents && n.parents == h.parents[p := n.parents[p]]
    ensures Holdings(n, asset) ==
            Holdings(h, asset) + HeldIn(n.parents[p], SeatOf(h, p), asset) - HeldIn(h.parents[p], SeatOf(h, p), asset)
  {
    var now := HeldIn(n.parents[p], SeatOf(h, p), asset);
    assert HoldingsMap(n, asset) == HoldingsMap(h, asset)[p := now];
    MapSumUpdate(HoldingsMap(h, asset), p, now);
  }

  lemma VirtualChange(h: Hub, n: Hub, id: ID, asset: nat)
    requires n.seats == h.seats && id in n.virtuals && n.virtuals == h.virtuals[id := n.virtuals[id]]
    ensures AllOutstanding(n, asset) ==
            AllOutstanding(h, asset) + Outstanding(h, n.virtuals[id], asset) -
            if id in h.virtuals then Outstanding(h, h.virtuals[id], asset) else 0
  {
    var now := Outstanding(h, n.virtuals[id], asset);
    assert OutstandingMap(n, asset) == OutstandingMap(h, asset)[id := now];
    MapSumUpdate(OutstandingMap(h, asset), id, now);
  }

  lemma FundShare(h: Hub, e: Event, asset: nat)
    requires e.Fund? && CanFund(h, e) && SeatOf(h, SideOf(h.virtuals[e.id], e.onLeft).parent) < 2
    ensures var v := h.virtuals[e.id];
            var s := SideOf(v, e.onLeft);
            var seat := SeatOf(h, s.parent);
            HeldIn(FundedParent(h, e), seat, asset) == HeldIn(h.parents[s.parent], seat, asset) - Share(v.initial, s.indexMap, seat, asset)
  {
  }

  lemma SettleShare(h: Hub, e: Event, asset: nat)
    requires e.Settle? && CanSettle(h, e) && SeatOf(h, SideOf(h.virtuals[e.id], e.onLeft).parent) < 2
    ensures var v := h.virtuals[e.id];
            var s := SideOf(v, e.onLeft);
            var seat := SeatOf(h, s.parent);
            HeldIn(SettledParent(h, e), seat, asset) ==
            HeldIn(h.parents[s.parent], seat, asset) + Share(v.final.value, EntryMap(h.parents[s.parent], e.id), seat, asset)
  {
  }

  lemma FundConserves(h: Hub, e: Event, asset: nat, maps: bool)
    requires HubInv(h, maps) && e.Fund? && CanFund(h, e)
    ensures Holdings(Apply(h, e), asset) + AllOutstanding(Apply(h, e), asset) == Holdings(h, asset) + AllOutstanding(h, asset)
  {
    var n, p := Apply(h, e), SideOf(h.virtuals[e.id], e.onLeft).parent;
    assert ParentInv(h, p);
    FundShare(h, e, asset);
    ParentChange(h, n, p, asset);
    VirtualChange(h, n, e.id, asset);
  }

  lemma SettleOutstanding(h: Hub, e: Event, asset: nat)
    requires e.Settle? && CanSettle(h, e)
    ensures var v := h.virtuals[e.id];
            var s := SideOf(v, e.onLeft);
            Outstanding(h, Apply(h, e).virtuals[e.id], asset) ==
            Outstanding(h, v, asset) - Share(v.final.value, EntryMap(h.parents[s.parent], e.id), SeatOf(h, s.parent), asset)
  {
  }

  lemma SettleConserves(h: Hub, e: Event, asset: nat, maps: bool)
    requires HubInv(h, maps) && e.Settle? && CanSettle(h, e)
    ensures Holdings(Apply(h, e), asset) + AllOutstanding(Apply(h, e), asset) == Holdings(h, asset) + AllOutstanding(h, asset)
  {
    var n, p := Apply(h, e), SideOf(h.virtuals[e.id], e.onLeft).parent;
    assert ParentInv(h, p);
    SettleShare(h, e, asset);
    SettleOutstanding(h, e, asset);
    ParentChange(h, n, p, asset);
    VirtualChange(h, n, e.id, asset);
  }

  /** No step but an ordinary update changes what the hub holds together with what is outstanding. */
  lemma StepConserves(h: Hub, e: Event, asset: nat, maps: bool)
    requires HubInv(h, maps)
    ensures Holdings(Apply(h, e), asset) + AllOutstanding(Apply(h, e), asset) ==
            Holdings(h, asset) + AllOutstanding(h, asset) + Gain(h, e, asset)
  {
    var n := Apply(h, e);
    if n != h {
      match e
      case Match(initial, _, _, _, _) => SameParents(h, n, asset); VirtualChange(h, n, initial.id, asset);
      case Finish(id, _) => SameParents(h, n, asset); VirtualChange(h, n, id, asset);
      case Pay(p, _) => SameVirtuals(h, n, asset); ParentChange(h, n, p, asset);
      case Fund(_, _) => FundConserves(h, e, asset, maps);
      case Settle(_, _) => SettleConserves(h, e, asset, maps);
    }
  }

  lemma SameParents(h: Hub, n: Hub, asset: nat)
    requires n.parents == h.parents && n.seats == h.seats
    ensures Holdings(n, asset) == Holdings(h, asset)
  {
    assert HoldingsMap(n, asset) == HoldingsMap(h, asset);
  }

  lemma SameVirtuals(h: Hub, n: Hub, asset: nat)
    requires n.virtuals == h.virtuals && n.seats == h.seats
    ensures AllOutstanding(n, asset) == AllOutstanding(h, asset)
  {
    assert OutstandingMap(n, asset) == OutstandingMap(h, asset);
  }

  // ----- every run

  /** Two-party parents in which the hub has a place, and no virtual channel yet. */
  ghost predicate Opening(h: Hub) {
    h.virtuals == map[] && forall p :: p in h.parents ==> ParentInv(h, p)
  }

  /** No update of the run rewrites an index map. */
  predicate RunKeepsMaps(h: Hub, events: seq<Event>) {
    events == [] ||
    var before := events[..|events| - 1];
    RunKeepsMaps(h, before) && KeepsMaps(Run(h, before), events[|events| - 1])
  }

  lemma {:induction false} InvOnEveryRun(h: Hub, events: seq<Event>, maps: bool)
    requires Opening(h) && (maps ==> RunKeepsMaps(h, events))
    ensures HubInv(Run(h, events), maps)
  {
    if events != [] {
      var before := events[..|events| - 1];
      InvOnEveryRun(h, before, maps);
      StepKeepsInv(Run(h, before), events[|events| - 1], maps);
    }
  }

  /** The hub's books balance after every run: its holdings over all parents, together with what is outstanding in
      virtual channels, are what it started with and what it gained by ordinary updates. */
  lemma {:induction false} BooksBalance(h: Hub, events: seq<Event>, asset: nat)
    requires Opening(h)
    ensures Holdings(Run(h, events), asset) + AllOutstanding(Run(h, events), asset) == Holdings(h, asset) + Gains(h, events, asset)
  {
    if events == [] {
      assert OutstandingMap(h, asset) == map[];
    } else {
      var before := events[..|events| - 1];
      BooksBalance(h, before, asset);
      InvOnEveryRun(h, before, false);
      StepConserves(Run(h, before), events[|events| - 1], asset, false);
    }
  }

  predicate Completed(v: Virtual) {
    v.left.phase.Closed? && v.right.phase.Closed?
  }

  /** The maps with which both sides were settled bring the hub everything. */
  predicate SettledAll(h: Hub, v: Virtual)
    requires Completed(v)
  {
    var m0, m1 := v.left.phase.settled, v.right.phase.settled;
    |m0| == 2 && |m1| == 2 && SettlesAll(m0, SeatOf(h, v.left.parent), m1, SeatOf(h, v.right.parent))
  }

  lemma ShareOfInitial(h: Hub, id: ID, asset: nat, maps: bool)
    requires HubInv(h, maps) && id in h.virtuals && asset < |h.virtuals[id].initial.alloc.balances|
    ensures var v := h.virtuals[id];
            Share(v.initial, v.left.indexMap, SeatOf(h, v.left.parent), asset) +
            Share(v.initial, v.right.indexMap, SeatOf(h, v.right.parent), asset) == Sum(v.initial.alloc.balances[asset])
  {
    var v := h.virtuals[id];
    assert VirtualInv(h, id, v, maps) && ParentInv(h, v.left.parent) && ParentInv(h, v.right.parent);
    HubShareIsTotal(v.initial.alloc.balances[asset], 2, v.left.indexMap, SeatOf(h, v.left.parent), v.right.indexMap, SeatOf(h, v.right.parent));
  }

  /** While both sides are open the hub has the whole of the virtual channel outstanding. */
  lemma OpenOutstanding(h: Hub, id: ID, asset: nat, maps: bool)
    requires HubInv(h, maps) && id in h.virtuals && h.virtuals[id].left.phase.Open? && h.virtuals[id].right.phase.Open?
    requires asset < |h.virtuals[id].initial.alloc.balances|
    ensures Outstanding(h, h.virtuals[id], asset) == Sum(h.virtuals[id].initial.alloc.balances[asset])
  {
    ShareOfInitial(h, id, asset, maps);
  }

  /** Of a completed channel nothing is outstanding, whatever its final state, if its maps brought the hub everything. */
  lemma CompletedOutstanding(h: Hub, id: ID, asset: nat, maps: bool)
    requires HubInv(h, maps) && id in h.virtuals && Completed(h.virtuals[id]) && SettledAll(h, h.virtuals[id])
    ensures Outstanding(h, h.virtuals[id], asset) == 0
  {
    var v := h.virtuals[id];
    assert VirtualInv(h, id, v, maps) && ParentInv(h, v.left.parent) && ParentInv(h, v.right.parent);
    if asset < |v.initial.alloc.balances| {
      ShareOfInitial(h, id, asset, maps);
      var f := v.final.value.alloc.balances[asset];
      ShareOfTwo(f, 2, v.left.phase.settled, SeatOf(h, v.left.parent), v.right.phase.settled, SeatOf(h, v.right.parent));
      SmallSum(f);
      NothingLockedSum(v.initial.alloc);
      NothingLockedSum(v.final.value.alloc);
      assert SumAlloc(v.initial.alloc)[asset] == SumAlloc(v.final.value.alloc)[asset];
    }
  }

  lemma {:induction false} NothingOutstanding(m: map<ID, int>)
    requires forall id :: id in m ==> m[id] == 0
    ensures MapSum(m) == 0
    decreases |m|
  {
    if m != map[] {
      var id :| id in m;
      MapSumRemove(m, id);
      NothingOutstanding(m - {id});
    }
  }

  /** The hub comes out whole: after every run at whose end each virtual channel is completed, the hub's holdings over all
      parents have changed by its gains from ordinary updates and by nothing else, provided the maps at settlement
      brought it everything. */
  lemma HubComesOutWhole(h: Hub, events: seq<Event>, asset: nat)
    requires Opening(h)
    requires forall id :: id in Run(h, events).virtuals ==>
               Completed(Run(h, events).virtuals[id]) && SettledAll(Run(h, events), Run(h, events).virtuals[id])
    ensures Holdings(Run(h, events), asset) == Holdings(h, asset) + Gains(h, events, asset)
  {
    var n := Run(h, events);
    BooksBalance(h, events, asset);
    InvOnEveryRun(h, events, false);
    forall id | id in n.virtuals
      ensures OutstandingMap(n, asset)[id] == 0
    {
      CompletedOutstanding(n, id, asset, false);
    }
    NothingOutstanding(OutstandingMap(n, asset));
  }

  /** Maps that were never rewritten bring the hub everything. */
  lemma KeptMapsSettleAll(h: Hub, id: ID)
    requires HubInv(h, true) && id in h.virtuals && Completed(h.virtuals[id])
    ensures SettledAll(h, h.virtuals[id])
  {
    var v := h.virtuals[id];
    assert VirtualInv(h, id, v, true);
    MatchingIsExact(v.left.indexMap, SeatOf(h, v.left.parent), v.right.indexMap, SeatOf(h, v.right.parent));
  }

  /** So the hub comes out whole of every run in which no update rewrites an index map. */
  lemma HubComesOutWholeWithMaps(h: Hub, events: seq<Event>, asset: nat)
    requires Opening(h) && RunKeepsMaps(h, events)
    requires forall id :: id in Run(h, events).virtuals ==> Completed(Run(h, events).virtuals[id])
    ensures Holdings(Run(h, events), asset) == Holdings(h, asset) + Gains(h, events, asset)
  {
    InvOnEveryRun(h, events, true);
    forall id | id in Run(h, events).virtuals
      ensures SettledAll(Run(h, events), Run(h, events).virtuals[id])
    {
      KeptMapsSettleAll(Run(h, events), id);
    }
    HubComesOutWhole(h, events, asset);
  }

  /** In such a run the settlement of an open side of a finished channel can always be built and be accepted: none of
      withdrawVirtualChannel's panics is hit. */
  lemma SettlementNeverRefused(h: Hub, events: seq<Event>, e: Event)
    requires Opening(h) && RunKeepsMaps(h, events) && e.Settle? && e.id in Run(h, events).virtuals
    requires Run(h, events).virtuals[e.id].final.Some? && SideOf(Run(h, events).virtuals[e.id], e.onLeft).phase.Open?
    ensures CanSettle(Run(h, events), e)
    ensures var v := Run(h, events).virtuals[e.id];
            v.final.value.alloc.balances != [] ==>
              VirtualWithdrawable(Run(h, events).parents[SideOf(v, e.onLeft).parent], v.final.value)
  {
    InvOnEveryRun(h, events, true);
    var n := Run(h, events);
    assert VirtualInv(n, e.id, n.virtuals[e.id], true);
  }
}

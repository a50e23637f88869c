/** Walking the tree of sub-channels (client/adjudicate.go) and flattening its states for the contract
    (backend/ethereum/channel/adjudicator.go). */
module Tree {
  import opened Base
  import opened Allocations
  import opened States

  /** What the walk reads of a registered channel: its parameters and its current transaction. */
  datatype Channel = Channel(params: Params, state: State, sigs: seq<Option<Sig>>)

  /** The client's registry of open channels. */
  type Registry = map<ID, Channel>

  function Locked(reg: Registry, id: ID): seq<SubAlloc>
    requires id in reg
  {
    reg[id].state.alloc.locked
  }

  /** Locked links between registered channels lead downwards. */
  ghost predicate Acyclic(reg: Registry, rank: ID -> nat) {
    forall id, i :: id in reg && 0 <= i < |Locked(reg, id)| && Locked(reg, id)[i].id in reg ==>
      rank(Locked(reg, id)[i].id) < rank(id)
  }

  /** Channels are registered under their own ID. */
  ghost predicate WellKeyed(reg: Registry) {
    forall id :: id in reg ==> reg[id].params.id == id
  }

  /** One list after the other; None if either is missing. */
  function Cat<T>(a: Option<seq<T>>, b: Option<seq<T>>): Option<seq<T>> {
    if a.Some? && b.Some? then Some(a.value + b.value) else None
  }

  lemma CatUnit<T>(a: Option<seq<T>>)
    ensures Cat(Some([]), a) == a && Cat(a, Some([])) == a
  {
    if a.Some? {
      assert [] + a.value == a.value && a.value + [] == a.value;
    }
  }

  lemma CatAssociates<T>(a: Option<seq<T>>, b: Option<seq<T>>, c: Option<seq<T>>)
    ensures Cat(Cat(a, b), c) == Cat(a, Cat(b, c))
  {
    if a.Some? && b.Some? && c.Some? {
      assert a.value + b.value + c.value == a.value + (b.value + c.value);
    }
  }

  /** The channels that applyToSubChannelsRecursive reaches from the k-th sub-allocation of a channel on, in
      its order; None if one is not registered. */
  function Visit(reg: Registry, ghost rank: ID -> nat, owner: ID, k: nat): Option<seq<ID>>
    requires Acyclic(reg, rank) && owner in reg && k <= |Locked(reg, owner)|
    decreases rank(owner), |Locked(reg, owner)| - k
  {
    if k == |Locked(reg, owner)| then Some([])
    else
      var sub := Locked(reg, owner)[k].id;
      if sub !in reg then None
      else Cat(Cat(Some([sub]), Visit(reg, rank, sub, 0)), Visit(reg, rank, owner, k + 1))
  }

  function Walk(reg: Registry, ghost rank: ID -> nat, root: ID): Option<seq<ID>>
    requires Acyclic(reg, rank) && root in reg
  {
    Visit(reg, rank, root, 0)
  }

  ghost predicate Registered(reg: Registry, ids: seq<ID>) {
    forall i :: 0 <= i < |ids| ==> ids[i] in reg
  }

  lemma {:induction false} VisitRegistered(reg: Registry, rank: ID -> nat, owner: ID, k: nat)
    requires Acyclic(reg, rank) && owner in reg && k <= |Locked(reg, owner)|
    ensures var v := Visit(reg, rank, owner, k);
            v.Some? ==> Registered(reg, v.value) && forall id :: id in v.value ==> rank(id) < rank(owner)
    decreases rank(owner), |Locked(reg, owner)| - k
  {
    if k < |Locked(reg, owner)| && Locked(reg, owner)[k].id in reg {
      VisitRegistered(reg, rank, Locked(reg, owner)[k].id, 0);
      VisitRegistered(reg, rank, owner, k + 1);
    }
  }

  // ----- gathering

  function Signed(c: Channel): SignedState {
    SignedState(c.params, c.state, c.sigs)
  }

  function SignedStates(reg: Registry, ids: seq<ID>): (s: seq<SignedState>)
    requires Registered(reg, ids)
    ensures |s| == |ids|
  {
    seq(|ids|, i requires 0 <= i < |ids| => Signed(reg[ids[i]]))
  }

  function StatesOf(reg: Registry, ids: seq<ID>): (s: seq<State>)
    requires Registered(reg, ids)
    ensures |s| == |ids|
  {
    seq(|ids|, i requires 0 <= i < |ids| => reg[ids[i]].state)
  }

  /** gatherSubChannelStates: the states of the walk, in its order. */
  method Gather(reg: Registry, ghost rank: ID -> nat, owner: ID, acc: seq<SignedState>)
    returns (ok: bool, states: seq<SignedState>)
    requires Acyclic(reg, rank) && owner in reg
    ensures ok == Walk(reg, rank, owner).Some?
    ensures ok ==> Registered(reg, Walk(reg, rank, owner).value)
    ensures ok ==> states == acc + SignedStates(reg, Walk(reg, rank, owner).value)
    decreases rank(owner)
  {
    states := acc;
    var locked := Locked(reg, owner);
    ghost var done: seq<ID> := [];
    VisitRegistered(reg, rank, owner, 0);
    CatUnit(Walk(reg, rank, owner));
    for k := 0 to |locked|
      invariant Registered(reg, done) && states == acc + SignedStates(reg, done)
      invariant Walk(reg, rank, owner) == Cat(Some(done), Visit(reg, rank, owner, k))
    {
      var sub := locked[k].id;
      if sub !in reg {
        return false, states;
      }
      CatAssociates(Some(done), Cat(Some([sub]), Walk(reg, rank, sub)), Visit(reg, rank, owner, k + 1));
      states := states + [Signed(reg[sub])];
      var below;
      below, states := Gather(reg, rank, sub, states);
      if !below {
        return false, states;
      }
      ghost var part := [sub] + Walk(reg, rank, sub).value;
      assert SignedStates(reg, done + part) == SignedStates(reg, done) + [Signed(reg[sub])] + SignedStates(reg, part[1..]);
      done := done + part;
    }
    CatUnit(Some(done));
    ok := true;
  }

  function ToMap(reg: Registry, ids: seq<ID>): map<ID, State>
    requires Registered(reg, ids)
  {
    map id | id in ids :: reg[id].state
  }

  lemma ToMapExtends(reg: Registry, acc: map<ID, State>, done: seq<ID>, sub: ID, below: seq<ID>)
    requires Registered(reg, done) && sub in reg && Registered(reg, below)
    ensures acc + ToMap(reg, done + ([sub] + below)) == (acc + ToMap(reg, done))[sub := reg[sub].state] + ToMap(reg, below)
  {
    var all := done + ([sub] + below);
    forall id
      ensures id in all <==> id in done || id == sub || id in below
    {
      if id in done {
        var i :| 0 <= i < |done| && done[i] == id;
        assert all[i] == id;
      }
      if id in below {
        var i :| 0 <= i < |below| && below[i] == id;
        assert all[|done| + 1 + i] == id;
      }
      assert all[|done|] == sub;
    }
  }

  /** subChannelStateMap: the same states by channel ID. */
  method StateMap(reg: Registry, ghost rank: ID -> nat, owner: ID, acc: map<ID, State>)
    returns (ok: bool, states: map<ID, State>)
    requires Acyclic(reg, rank) && WellKeyed(reg) && owner in reg
    ensures ok == Walk(reg, rank, owner).Some?
    ensures ok ==> Registered(reg, Walk(reg, rank, owner).value)
    ensures ok ==> states == acc + ToMap(reg, Walk(reg, rank, owner).value)
    decreases rank(owner)
  {
    states := acc;
    var locked := Locked(reg, owner);
    ghost var done: seq<ID> := [];
    VisitRegistered(reg, rank, owner, 0);
    CatUnit(Walk(reg, rank, owner));
    for k := 0 to |locked|
      invariant Registered(reg, done) && states == acc + ToMap(reg, done)
      invariant Walk(reg, rank, owner) == Cat(Some(done), Visit(reg, rank, owner, k))
    {
      var sub := locked[k].id;
      if sub !in reg {
        return false, states;
      }
      CatAssociates(Some(done), Cat(Some([sub]), Walk(reg, rank, sub)), Visit(reg, rank, owner, k + 1));
      states := states[reg[sub].params.id := reg[sub].state];
      var below;
      below, states := StateMap(reg, rank, sub, states);
      if !below {
        return false, states;
      }
      ghost var part := [sub] + Walk(reg, rank, sub).value;
      ToMapExtends(reg, acc, done, sub, Walk(reg, rank, sub).value);
      done := done + part;
    }
    CatUnit(Some(done));
    ok := true;
  }

  // ----- flattening the map

  /** The states found in the map lead downwards. */
  ghost predicate AcyclicStates(states: map<ID, State>, rank: ID -> nat) {
    forall id, i :: id in states && 0 <= i < |states[id].alloc.locked| && states[id].alloc.locked[i].id in states ==>
      rank(states[id].alloc.locked[i].id) < rank(id)
  }

  ghost predicate Below(states: map<ID, State>, rank: ID -> nat, locked: seq<SubAlloc>, bound: nat) {
    forall i :: 0 <= i < |locked| && locked[i].id in states ==> rank(locked[i].id) < bound
  }

  /** toEthSubStates from the k-th sub-allocation on; None is its panic "sub-state not found". */
  function Flatten(states: map<ID, State>, ghost rank: ID -> nat, locked: seq<SubAlloc>, k: nat, ghost bound: nat): Option<seq<State>>
    requires AcyclicStates(states, rank) && Below(states, rank, locked, bound) && k <= |locked|
    decreases bound, |locked| - k
  {
    if k == |locked| then Some([])
    else
      var id := locked[k].id;
      if id !in states then None
      else
        var below := states[id].alloc.locked;
        var sub := if |below| > 0 then Flatten(states, rank, below, 0, rank(id)) else Some([]);
        Cat(Cat(Some([states[id]]), sub), Flatten(states, rank, locked, k + 1, bound))
  }

  /** toEthSubStates as the source runs it; a missing state is its panic. */
  method ToEthSubStates(states: map<ID, State>, ghost rank: ID -> nat, locked: seq<SubAlloc>, ghost bound: nat)
    returns (r: Option<seq<State>>)
    requires AcyclicStates(states, rank) && Below(states, rank, locked, bound)
    ensures r == Flatten(states, rank, locked, 0, bound)
    decreases bound
  {
    var out: seq<State> := [];
    CatUnit(Flatten(states, rank, locked, 0, bound));
    for k := 0 to |locked|
      invariant Flatten(states, rank, locked, 0, bound) == Cat(Some(out), Flatten(states, rank, locked, k, bound))
    {
      var id := locked[k].id;
      if id !in states {
        return None;
      }
      ghost var before, rest := Some(out), Flatten(states, rank, locked, k + 1, bound);
      out := out + [states[id]];
      if |states[id].alloc.locked| > 0 {
        var sub := ToEthSubStates(states, rank, states[id].alloc.locked, rank(id));
        CatAssociates(before, Some([states[id]]), sub);
        CatAssociates(before, Cat(Some([states[id]]), sub), rest);
        if sub.None? {
          return None;
        }
        out := out + sub.value;
      } else {
        CatUnit(Some([states[id]]));
        CatAssociates(before, Some([states[id]]), rest);
      }
    }
    CatUnit(Some(out));
    r := Some(out);
  }

  lemma SubMapAcyclic(reg: Registry, rank: ID -> nat, ids: seq<ID>, owner: ID)
    requires Acyclic(reg, rank) && Registered(reg, ids) && owner in reg
    ensures AcyclicStates(ToMap(reg, ids), rank) && Below(ToMap(reg, ids), rank, Locked(reg, owner), rank(owner))
  {
    var states := ToMap(reg, ids);
    forall id, i | id in states && 0 <= i < |states[id].alloc.locked| && states[id].alloc.locked[i].id in states
      ensures rank(states[id].alloc.locked[i].id) < rank(id)
    {
      assert states[id].alloc.locked[i] == Locked(reg, id)[i];
    }
  }

  lemma StatesOfJoin(reg: Registry, sub: ID, below: seq<ID>, rest: seq<ID>)
    requires sub in reg && Registered(reg, below) && Registered(reg, rest)
    ensures Registered(reg, [sub] + below + rest)
    ensures StatesOf(reg, [sub] + below + rest) == [reg[sub].state] + StatesOf(reg, below) + StatesOf(reg, rest)
  {
  }

  /** The guard against an empty list of sub-allocations makes no difference. */
  lemma FlattenStep(states: map<ID, State>, rank: ID -> nat, locked: seq<SubAlloc>, k: nat, bound: nat, below: seq<State>, rest: seq<State>)
    requires AcyclicStates(states, rank) && Below(states, rank, locked, bound) && k < |locked| && locked[k].id in states
    requires Flatten(states, rank, states[locked[k].id].alloc.locked, 0, rank(locked[k].id)) == Some(below)
    requires Flatten(states, rank, locked, k + 1, bound) == Some(rest)
    ensures Flatten(states, rank, locked, k, bound) == Some([states[locked[k].id]] + below + rest)
  {
  }

  /** As long as the map holds all states of the walk, flattening it is the walk. */
  lemma {:induction false} FlattenIsWalk(reg: Registry, rank: ID -> nat, ids: seq<ID>, owner: ID, k: nat)
    requires Acyclic(reg, rank) && Registered(reg, ids) && owner in reg && k <= |Locked(reg, owner)|
    requires Visit(reg, rank, owner, k).Some? && forall id :: id in Visit(reg, rank, owner, k).value ==> id in ids
    ensures AcyclicStates(ToMap(reg, ids), rank) && Below(ToMap(reg, ids), rank, Locked(reg, owner), rank(owner))
    ensures Registered(reg, Visit(reg, rank, owner, k).value)
    ensures Flatten(ToMap(reg, ids), rank, Locked(reg, owner), k, rank(owner)) ==
            Some(StatesOf(reg, Visit(reg, rank, owner, k).value))
    decreases rank(owner), |Locked(reg, owner)| - k
  {
    SubMapAcyclic(reg, rank, ids, owner);
    VisitRegistered(reg, rank, owner, k);
    if k < |Locked(reg, owner)| {
      var sub := Locked(reg, owner)[k].id;
      var below, rest := Visit(reg, rank, sub, 0).value, Visit(reg, rank, owner, k + 1).value;
      assert Visit(reg, rank, owner, k).value == [sub] + below + rest;
      FlattenIsWalk(reg, rank, ids, sub, 0);
      FlattenIsWalk(reg, rank, ids, owner, k + 1);
      StatesOfJoin(reg, sub, below, rest);
      FlattenStep(ToMap(reg, ids), rank, Locked(reg, owner), k, rank(owner), StatesOf(reg, below), StatesOf(reg, rest));
    }
  }

  lemma RankedFlattening(reg: Registry, rank: ID -> nat, root: ID)
    requires Acyclic(reg, rank) && root in reg && Walk(reg, rank, root).Some?
    ensures var ids := Walk(reg, rank, root).value;
            && Registered(reg, ids)
            && AcyclicStates(ToMap(reg, ids), rank) && Below(ToMap(reg, ids), rank, Locked(reg, root), rank(root))
            && Flatten(ToMap(reg, ids), rank, Locked(reg, root), 0, rank(root)) == Some(StatesOf(reg, ids))
            && forall i :: 0 <= i < |ids| ==> StatesOf(reg, ids)[i] == SignedStates(reg, ids)[i].state
  {
    var ids := Walk(reg, rank, root).value;
    VisitRegistered(reg, rank, root, 0);
    FlattenIsWalk(reg, rank, ids, root, 0);
  }

  // ----- trees

  ghost predicate IsParent(reg: Registry, p: ID, i: nat, id: ID) {
    p in reg && i < |Locked(reg, p)| && Locked(reg, p)[i].id == id
  }

  /** Every channel is locked at most once. */
  ghost predicate IsTree(reg: Registry) {
    forall p, i, q, j, id :: IsParent(reg, p, i, id) && IsParent(reg, q, j, id) ==> p == q && i == j
  }

  ghost predicate Distinct(ids: seq<ID>) {
    forall i, j :: 0 <= i < j < |ids| ==> ids[i] != ids[j]
  }

  /** Every visited channel is locked in the owner from position k on, or in a visited channel. */
  lemma {:induction false} VisitedHasParent(reg: Registry, rank: ID -> nat, owner: ID, k: nat, id: ID) returns (p: ID, i: nat)
    requires Acyclic(reg, rank) && owner in reg && k <= |Locked(reg, owner)|
    requires Visit(reg, rank, owner, k).Some? && id in Visit(reg, rank, owner, k).value
    ensures IsParent(reg, p, i, id)
    ensures p in Visit(reg, rank, owner, k).value || (p == owner && i >= k)
    decreases rank(owner), |Locked(reg, owner)| - k
  {
    var sub := Locked(reg, owner)[k].id;
    var below, rest := Visit(reg, rank, sub, 0).value, Visit(reg, rank, owner, k + 1).value;
    assert Visit(reg, rank, owner, k).value == [sub] + below + rest;
    if id == sub {
      p, i := owner, k;
    } else if id in below {
      p, i := VisitedHasParent(reg, rank, sub, 0, id);
    } else {
      p, i := VisitedHasParent(reg, rank, owner, k + 1, id);
    }
  }

  /** What is below one sub-channel is not visited again from the later sub-allocations of the same channel. */
  lemma {:induction false} BranchesDisjoint(reg: Registry, rank: ID -> nat, owner: ID, k: nat, id: ID)
    requires Acyclic(reg, rank) && IsTree(reg) && owner in reg && k < |Locked(reg, owner)|
    requires Visit(reg, rank, owner, k).Some?
    ensures var sub := Locked(reg, owner)[k].id;
            id in [sub] + Visit(reg, rank, sub, 0).value ==> id !in Visit(reg, rank, owner, k + 1).value
    decreases rank(owner) - rank(id)
  {
    var sub := Locked(reg, owner)[k].id;
    var below, rest := Visit(reg, rank, sub, 0).value, Visit(reg, rank, owner, k + 1).value;
    if id in [sub] + below && id in rest {
      VisitRegistered(reg, rank, sub, 0);
      VisitRegistered(reg, rank, owner, k + 1);
      var q, j := VisitedHasParent(reg, rank, owner, k + 1, id);
      if id == sub {
        assert IsParent(reg, owner, k, id);
      } else {
        var p, i := VisitedHasParent(reg, rank, sub, 0, id);
        assert p == q && p in [sub] + below;
        BranchesDisjoint(reg, rank, owner, k, p);
      }
      assert false;
    }
  }

  lemma DistinctJoin(sub: ID, below: seq<ID>, rest: seq<ID>)
    requires Distinct(below) && Distinct(rest) && sub !in below
    requires forall id :: id in [sub] + below ==> id !in rest
    ensures Distinct([sub] + below + rest)
  {
    var all := [sub] + below + rest;
    forall i, j | 0 <= i < j < |all|
      ensures all[i] != all[j]
    {
      if j <= |below| {
        assert i > 0 ==> all[i] == below[i - 1];
        assert all[j] == below[j - 1];
      } else if i > |below| {
        assert all[i] == rest[i - |below| - 1] && all[j] == rest[j - |below| - 1];
      } else {
        assert all[i] == ([sub] + below)[i] && all[i] in [sub] + below;
        assert all[j] == rest[j - |below| - 1];
      }
    }
  }

  /** In a tree the walk visits no channel twice. */
  lemma {:induction false} VisitsOnce(reg: Registry, rank: ID -> nat, owner: ID, k: nat)
    requires Acyclic(reg, rank) && IsTree(reg) && owner in reg && k <= |Locked(reg, owner)|
    requires Visit(reg, rank, owner, k).Some?
    ensures Distinct(Visit(reg, rank, owner, k).value)
    decreases rank(owner), |Locked(reg, owner)| - k
  {
    if k < |Locked(reg, owner)| {
      var sub := Locked(reg, owner)[k].id;
      var below, rest := Visit(reg, rank, sub, 0).value, Visit(reg, rank, owner, k + 1).value;
      assert Visit(reg, rank, owner, k).value == [sub] + below + rest;
      VisitsOnce(reg, rank, sub, 0);
      VisitsOnce(reg, rank, owner, k + 1);
      VisitRegistered(reg, rank, sub, 0);
      forall id | id in [sub] + below
        ensures id !in rest
      {
        BranchesDisjoint(reg, rank, owner, k, id);
      }
      DistinctJoin(sub, below, rest);
    }
  }

  /** Every channel locked in the root or in a visited channel is visited. */
  lemma {:induction false} VisitsAllChildren(reg: Registry, rank: ID -> nat, owner: ID, k: nat, p: ID, i: nat, id: ID)
    requires Acyclic(reg, rank) && owner in reg && k <= |Locked(reg, owner)|
    requires Visit(reg, rank, owner, k).Some? && IsParent(reg, p, i, id)
    requires p in Visit(reg, rank, owner, k).value || (p == owner && i >= k)
    ensures id in Visit(reg, rank, owner, k).value
    decreases rank(owner), |Locked(reg, owner)| - k
  {
    var sub := Locked(reg, owner)[k].id;
    var below, rest := Visit(reg, rank, sub, 0).value, Visit(reg, rank, owner, k + 1).value;
    var all := Visit(reg, rank, owner, k).value;
    assert all == [sub] + below + rest;
    if p == owner && i == k {
      assert all[0] == id;
    } else if p == sub || p in below {
      VisitsAllChildren(reg, rank, sub, 0, p, i, id);
    } else {
      VisitsAllChildren(reg, rank, owner, k + 1, p, i, id);
    }
  }

  ghost predicate IsChild(reg: Registry, p: ID, id: ID) {
    exists i: nat :: IsParent(reg, p, i, id)
  }

  /** A chain of n further Locked links leads from a sub-channel of the root to the channel. */
  ghost predicate Reaches(reg: Registry, root: ID, id: ID, n: nat)
    decreases n
  {
    if n == 0 then IsChild(reg, root, id) else exists p :: Reaches(reg, root, p, n - 1) && IsChild(reg, p, id)
  }

  ghost predicate IsBelow(reg: Registry, root: ID, id: ID) {
    exists n: nat :: Reaches(reg, root, id, n)
  }

  lemma {:induction false} VisitedIsReached(reg: Registry, rank: ID -> nat, root: ID, id: ID) returns (n: nat)
    requires Acyclic(reg, rank) && root in reg && Walk(reg, rank, root).Some? && id in Walk(reg, rank, root).value
    ensures Reaches(reg, root, id, n)
    decreases rank(root) - rank(id)
  {
    VisitRegistered(reg, rank, root, 0);
    var p, i := VisitedHasParent(reg, rank, root, 0, id);
    assert IsChild(reg, p, id);
    n := 0;
    if p in Walk(reg, rank, root).value {
      var d := VisitedIsReached(reg, rank, root, p);
      n := d + 1;
    }
  }

  lemma {:induction false} ReachedIsVisited(reg: Registry, rank: ID -> nat, root: ID, id: ID, n: nat)
    requires Acyclic(reg, rank) && root in reg && Walk(reg, rank, root).Some? && Reaches(reg, root, id, n)
    ensures id in Walk(reg, rank, root).value
    decreases n
  {
    var p := root;
    if n > 0 {
      p :| Reaches(reg, root, p, n - 1) && IsChild(reg, p, id);
      ReachedIsVisited(reg, rank, root, p, n - 1);
    }
    var i: nat :| IsParent(reg, p, i, id);
    VisitsAllChildren(reg, rank, root, 0, p, i, id);
  }

  lemma VisitedIffBelow(reg: Registry, rank: ID -> nat, root: ID, id: ID)
    requires Acyclic(reg, rank) && root in reg && Walk(reg, rank, root).Some?
    ensures id in Walk(reg, rank, root).value <==> IsBelow(reg, root, id)
  {
    if id in Walk(reg, rank, root).value {
      var n := VisitedIsReached(reg, rank, root, id);
    }
    if IsBelow(reg, root, id) {
      var n: nat :| Reaches(reg, root, id, n);
      ReachedIsVisited(reg, rank, root, id, n);
    }
  }

  lemma RankedWalk(reg: Registry, rank: ID -> nat, root: ID)
    requires Acyclic(reg, rank) && root in reg && Walk(reg, rank, root).Some?
    ensures forall id :: id in Walk(reg, rank, root).value <==> IsBelow(reg, root, id)
    ensures IsTree(reg) ==> Distinct([root] + Walk(reg, rank, root).value)
  {
    forall id
      ensures id in Walk(reg, rank, root).value <==> IsBelow(reg, root, id)
    {
      VisitedIffBelow(reg, rank, root, id);
    }
    if IsTree(reg) {
      VisitsOnce(reg, rank, root, 0);
      VisitRegistered(reg, rank, root, 0);
    }
  }

  // ----- registries without cycles

  /** No channel is below itself. */
  ghost predicate CycleFree(reg: Registry) {
    forall id :: id in reg ==> !IsBelow(reg, id, id)
  }

  ghost function AllBelow(reg: Registry, id: ID): set<ID> {
    set x | x in reg && IsBelow(reg, id, x)
  }

  /** The number of registered channels below a channel. */
  ghost function Size(reg: Registry): ID -> nat {
    (id: ID) => |AllBelow(reg, id)|
  }

  lemma {:induction false} ReachesFromParent(reg: Registry, p: ID, id: ID, x: ID, n: nat)
    requires IsChild(reg, p, id) && Reaches(reg, id, x, n)
    ensures Reaches(reg, p, x, n + 1)
    decreases n
  {
    if n == 0 {
      assert Reaches(reg, p, id, 0) && IsChild(reg, id, x);
    } else {
      var y :| Reaches(reg, id, y, n - 1) && IsChild(reg, y, x);
      ReachesFromParent(reg, p, id, y, n - 1);
    }
  }

  /** A child has fewer channels below it. */
  lemma ChildIsSmaller(reg: Registry, p: ID, id: ID)
    requires CycleFree(reg) && p in reg && id in reg && IsChild(reg, p, id)
    ensures |AllBelow(reg, id)| < |AllBelow(reg, p)|
  {
    forall x | x in AllBelow(reg, id)
      ensures x in AllBelow(reg, p)
    {
      var n: nat :| Reaches(reg, id, x, n);
      ReachesFromParent(reg, p, id, x, n);
    }
    assert Reaches(reg, p, id, 0) && id in AllBelow(reg, p) && id !in AllBelow(reg, id);
    SmallerSet(AllBelow(reg, id), AllBelow(reg, p), id);
  }

  lemma SmallerSet(a: set<ID>, b: set<ID>, x: ID)
    requires a <= b && x in b && x !in a
    ensures |a| < |b|
  {
    SubsetSize(a, b - {x});
  }

  lemma {:induction false} SubsetSize(a: set<ID>, b: set<ID>)
    requires a <= b
    ensures |a| <= |b|
    decreases |a|
  {
    if a != {} {
      var x :| x in a;
      SubsetSize(a - {x}, b - {x});
    }
  }

  lemma {:induction false} ReachedIsRankedBelow(reg: Registry, rank: ID -> nat, root: ID, id: ID, n: nat)
    requires Acyclic(reg, rank) && root in reg && id in reg && Reaches(reg, root, id, n)
    ensures rank(id) < rank(root)
    decreases n
  {
    if n > 0 {
      var p :| Reaches(reg, root, p, n - 1) && IsChild(reg, p, id);
      ReachedIsRankedBelow(reg, rank, root, p, n - 1);
    }
  }

  /** There is a rank exactly if there is no cycle; so the recursions end exactly on registries without one. */
  lemma CycleFreeIffRanked(reg: Registry)
    ensures CycleFree(reg) <==> exists rank: ID -> nat :: Acyclic(reg, rank)
    ensures CycleFree(reg) ==> Acyclic(reg, Size(reg))
  {
    if CycleFree(reg) {
      forall id, i | id in reg && 0 <= i < |Locked(reg, id)| && Locked(reg, id)[i].id in reg
        ensures Size(reg)(Locked(reg, id)[i].id) < Size(reg)(id)
      {
        assert IsParent(reg, id, i, Locked(reg, id)[i].id);
        ChildIsSmaller(reg, id, Locked(reg, id)[i].id);
      }
      assert Acyclic(reg, Size(reg));
    }
    if rank: ID -> nat :| Acyclic(reg, rank) {
      forall id | id in reg
        ensures !IsBelow(reg, id, id)
      {
        if n: nat :| Reaches(reg, id, id, n) {
          ReachedIsRankedBelow(reg, rank, id, id, n);
        }
      }
    }
  }

  /** The walk of a registry without cycles. */
  ghost function WalkOf(reg: Registry, root: ID): Option<seq<ID>>
    requires CycleFree(reg) && root in reg
  {
    CycleFreeIffRanked(reg);
    Walk(reg, Size(reg), root)
  }

  /** Every rank leads to the same walk. */
  lemma {:induction false} RankDoesNotMatter(reg: Registry, rank: ID -> nat, other: ID -> nat, owner: ID, k: nat)
    requires Acyclic(reg, rank) && Acyclic(reg, other) && owner in reg && k <= |Locked(reg, owner)|
    ensures Visit(reg, rank, owner, k) == Visit(reg, other, owner, k)
    decreases rank(owner), |Locked(reg, owner)| - k
  {
    if k < |Locked(reg, owner)| && Locked(reg, owner)[k].id in reg {
      RankDoesNotMatter(reg, rank, other, Locked(reg, owner)[k].id, 0);
      RankDoesNotMatter(reg, rank, other, owner, k + 1);
    }
  }

  /** Collecting by ID and flattening gives the gathered list, and the panic is out of reach, on every registry
      without cycles. */
  lemma FlatteningIsGathering(reg: Registry, root: ID)
    requires CycleFree(reg) && root in reg && WalkOf(reg, root).Some?
    ensures var ids, size := WalkOf(reg, root).value, Size(reg);
            && Registered(reg, ids)
            && AcyclicStates(ToMap(reg, ids), size) && Below(ToMap(reg, ids), size, Locked(reg, root), size(root))
            && Flatten(ToMap(reg, ids), size, Locked(reg, root), 0, size(root)) == Some(StatesOf(reg, ids))
            && forall i :: 0 <= i < |ids| ==> StatesOf(reg, ids)[i] == SignedStates(reg, ids)[i].state
  {
    CycleFreeIffRanked(reg);
    RankedFlattening(reg, Size(reg), root);
  }

  /** The walk visits exactly the channels that a chain of Locked links reaches from the root, and in a tree
      each of them once. */
  lemma WalkCoversTree(reg: Registry, root: ID)
    requires CycleFree(reg) && root in reg && WalkOf(reg, root).Some?
    ensures forall id :: id in WalkOf(reg, root).value <==> IsBelow(reg, root, id)
    ensures IsTree(reg) ==> Distinct([root] + WalkOf(reg, root).value)
  {
    CycleFreeIffRanked(reg);
    RankedWalk(reg, Size(reg), root);
  }

  /** The walk from the k-th sub-allocation on succeeds if everything below the owner is registered. */
  lemma {:induction false} VisitSucceeds(reg: Registry, rank: ID -> nat, owner: ID, k: nat)
    requires Acyclic(reg, rank) && owner in reg && k <= |Locked(reg, owner)|
    requires forall id :: IsBelow(reg, owner, id) ==> id in reg
    ensures Visit(reg, rank, owner, k).Some?
    decreases rank(owner), |Locked(reg, owner)| - k
  {
    if k < |Locked(reg, owner)| {
      var sub := Locked(reg, owner)[k].id;
      assert IsParent(reg, owner, k, sub);
      assert Reaches(reg, owner, sub, 0);
      forall id | IsBelow(reg, sub, id)
        ensures id in reg
      {
        var n: nat :| Reaches(reg, sub, id, n);
        ReachesFromParent(reg, owner, sub, id, n);
      }
      VisitSucceeds(reg, rank, sub, 0);
      VisitSucceeds(reg, rank, owner, k + 1);
    }
  }

  /** The walk succeeds exactly if every channel below the root is registered. */
  lemma WalkSucceedsIff(reg: Registry, root: ID)
    requires CycleFree(reg) && root in reg
    ensures WalkOf(reg, root).Some? <==> forall id :: IsBelow(reg, root, id) ==> id in reg
  {
    CycleFreeIffRanked(reg);
    if forall id :: IsBelow(reg, root, id) ==> id in reg {
      VisitSucceeds(reg, Size(reg), root, 0);
    }
    if WalkOf(reg, root).Some? {
      RankedWalk(reg, Size(reg), root);
      VisitRegistered(reg, Size(reg), root, 0);
    }
  }

  // ----- locking

  ghost function Elements(ids: seq<ID>): set<ID> {
    set id | id in ids
  }

  /** All mutexes can be taken one after the other: none is held and none is asked for twice. */
  ghost predicate Lockable(ids: seq<ID>, held: set<ID>) {
    Distinct(ids) && forall id :: id in ids ==> id !in held
  }

  lemma LockableSplit(a: seq<ID>, b: seq<ID>, held: set<ID>)
    ensures Elements(a + b) == Elements(a) + Elements(b)
    ensures Lockable(a + b, held) <==> Lockable(a, held) && Lockable(b, held + Elements(a))
  {
    var all := a + b;
    forall i | 0 <= i < |a|
      ensures all[i] == a[i] && a[i] in all && a[i] in Elements(a)
    {
    }
    forall j | 0 <= j < |b|
      ensures all[|a| + j] == b[j] && b[j] in all
    {
    }
    if Lockable(a, held) && Lockable(b, held + Elements(a)) {
      forall i, j | 0 <= i < j < |all|
        ensures all[i] != all[j]
      {
        assert j >= |a| ==> all[j] == b[j - |a|] && b[j - |a|] in b;
        assert i >= |a| ==> all[i] == b[i - |a|];
      }
    }
    if Lockable(all, held) {
      forall i, j | 0 <= i < |a| && 0 <= j < |b|
        ensures a[i] != b[j]
      {
        assert all[i] == a[i] && all[|a| + j] == b[j];
      }
      forall i, j | 0 <= i < j < |b|
        ensures b[i] != b[j]
      {
        assert all[|a| + i] == b[i] && all[|a| + j] == b[j];
      }
    }
  }

  /** Locking one mutex after the other; a mutex that is held is not obtained. */
  function LockAll(ids: seq<ID>, held: set<ID>): Option<set<ID>> {
    if ids == [] then Some(held)
    else if ids[0] in held then None
    else LockAll(ids[1..], held + {ids[0]})
  }

  lemma {:induction false} LockAllSplit(a: seq<ID>, b: seq<ID>, held: set<ID>)
    ensures LockAll(a + b, held) == if LockAll(a, held).None? then None else LockAll(b, LockAll(a, held).value)
  {
    if a == [] {
      assert a + b == b;
    } else if a[0] !in held {
      LockAllSplit(a[1..], b, held + {a[0]});
      assert (a + b)[1..] == a[1..] + b;
    }
  }

  /** Locking in order succeeds exactly if nothing is held already and nothing is asked for twice. */
  lemma {:induction false} LockAllIffLockable(ids: seq<ID>, held: set<ID>)
    ensures LockAll(ids, held) == if Lockable(ids, held) then Some(held + Elements(ids)) else None
  {
    if ids == [] {
      assert held + Elements(ids) == held;
    } else {
      var first, rest := ids[..1], ids[1..];
      assert ids == first + rest && Elements(first) == {ids[0]};
      LockAllIffLockable(rest, held + {ids[0]});
      LockableSplit(first, rest, held);
      assert first[0] in first;
      assert held + {ids[0]} + Elements(rest) == held + Elements(ids);
    }
  }

  function LockWalk(ids: Option<seq<ID>>, held: set<ID>): Option<set<ID>> {
    if ids.None? then None else LockAll(ids.value, held)
  }

  lemma LockNext(sub: ID, below: Option<seq<ID>>, rest: Option<seq<ID>>, held: set<ID>)
    ensures var part := LockWalk(below, held + {sub});
            LockWalk(Cat(Cat(Some([sub]), below), rest), held) ==
            if sub in held || part.None? then None else LockWalk(rest, part.value)
  {
    if below.Some? && rest.Some? {
      var all := [sub] + below.value + rest.value;
      assert all[0] == sub && all[1..] == below.value + rest.value;
      LockAllSplit(below.value, rest.value, held + {sub});
    }
  }

  /** Locks what is below a channel. */
  method LockBelow(reg: Registry, ghost rank: ID -> nat, owner: ID, held: set<ID>, acc: seq<ID>)
    returns (now: Option<set<ID>>, l: seq<ID>)
    requires Acyclic(reg, rank) && owner in reg
    ensures now == LockWalk(Walk(reg, rank, owner), held)
    ensures now.Some? ==> Some(l) == Cat(Some(acc), Walk(reg, rank, owner))
    decreases rank(owner)
  {
    now, l := Some(held), acc;
    var locked := Locked(reg, owner);
    for k := 0 to |locked|
      invariant now.Some? && LockWalk(Walk(reg, rank, owner), held) == LockWalk(Visit(reg, rank, owner, k), now.value)
      invariant Cat(Some(acc), Walk(reg, rank, owner)) == Cat(Some(l), Visit(reg, rank, owner, k))
    {
      var sub := locked[k].id;
      if sub !in reg {
        return None, l;
      }
      ghost var below, rest := Walk(reg, rank, sub), Visit(reg, rank, owner, k + 1);
      LockNext(sub, below, rest, now.value);
      CatAssociates(Some(l), Cat(Some([sub]), below), rest);
      CatAssociates(Some(l), Some([sub]), below);
      if sub in now.value {
        return None, l;
      }
      l := l + [sub];
      now, l := LockBelow(reg, rank, sub, now.value + {sub}, l);
      if now.None? {
        return;
      }
    }
    CatUnit(Some(l));
  }

  /** tryLockRecursive succeeds exactly if the whole walk is registered, free and without repetition; then it
      holds each mutex once and lists them in the order of the walk. */
  method TryLockRecursive(reg: Registry, ghost rank: ID -> nat, root: ID, held: set<ID>)
    returns (now: Option<set<ID>>, l: seq<ID>)
    requires Acyclic(reg, rank) && root in reg
    ensures now.Some? <==> Walk(reg, rank, root).Some? && Lockable([root] + Walk(reg, rank, root).value, held)
    ensures now.Some? ==> l == [root] + Walk(reg, rank, root).value && now.value == held + Elements(l)
  {
    if Walk(reg, rank, root).Some? {
      ghost var all := [root] + Walk(reg, rank, root).value;
      LockAllIffLockable(all, held);
      assert all[1..] == Walk(reg, rank, root).value;
    }
    if root in held {
      return None, [];
    }
    now, l := LockBelow(reg, rank, root, held + {root}, [root]);
  }

  /** With all mutexes free, locking a registered tree succeeds. */
  lemma TreeIsLockable(reg: Registry, root: ID)
    requires CycleFree(reg) && IsTree(reg) && root in reg && WalkOf(reg, root).Some?
    ensures Lockable([root] + WalkOf(reg, root).value, {})
  {
    WalkCoversTree(reg, root);
  }
}

/** Who has to have signed what before the hub settles or funds a virtual channel, and what a settlement pays
    (client/virtual_channel.go, client/virtual_channel_settlement.go). */
module Settlement {
  import opened Base
  import opened Sums
  import opened Allocations
  import opened States
  import opened Machines
  import opened StateMachines
  import opened SubChannels
  import opened VirtualChannels
  import Divergence

  // ----- signatures

  /** Every slot that is given is of a participant and holds its verifying signature. */
  predicate VerifiesWhereGiven(env: Env, params: Params, s: State, sigs: seq<Option<Sig>>) {
    |sigs| <= |params.parts| &&
    forall i :: 0 <= i < |sigs| ==> sigs[i].Some? && env.verify(params.parts[i], s, sigs[i].value)
  }

  /** Accepted settlements and fundings are signed wherever they have a slot. */
  lemma AcceptedMeansSigned(env: Env, parent: State, funding: FundingProposal, settlement: SettlementProposal)
    ensures ValidFundingProposal(env, parent, funding) ==>
              VerifiesWhereGiven(env, funding.initial.params, funding.initial.state, funding.initial.sigs)
    ensures ValidSettlementProposal(env, parent, settlement) ==>
              VerifiesWhereGiven(env, settlement.final.params, settlement.final.state, settlement.final.sigs)
  {
    VerifyMeansSigned(env, funding.initial);
    VerifyMeansSigned(env, settlement.final);
  }

  lemma VerifyMeansSigned(env: Env, s: SignedState)
    ensures SignaturesVerify(env, s) <==> VerifiesWhereGiven(env, s.params, s.state, s.sigs)
  {
    if |s.sigs| > |s.params.parts| {
      var beyond := s.sigs[|s.params.parts|];
      assert !SignaturesVerify(env, s);
    }
  }

  /** The check looks at the given slots only: an accepted proposal stays accepted with the last slots cut off. */
  lemma ShortListAccepted(env: Env, parent: State, prop: SettlementProposal, k: nat)
    requires ValidSettlementProposal(env, parent, prop) && k <= |prop.final.sigs|
    ensures ValidSettlementProposal(env, parent, prop.(final := prop.final.(sigs := prop.final.sigs[..k])))
  {
    VerifyMeansSigned(env, prop.final);
    VerifyMeansSigned(env, prop.final.(sigs := prop.final.sigs[..k]));
    var cut := prop.final.(sigs := prop.final.sigs[..k]);
    assert forall i :: 0 <= i < k ==> cut.sigs[i] == prop.final.sigs[i];
    assert SignaturesVerify(env, cut);
  }

  // ----- the forced final update

  /** What forceFinalState needs: one verifying signature per participant, and a final state. */
  predicate Forcible(env: Env, params: Params, final: SignedState) {
    && |final.sigs| == |params.parts| && VerifiesWhereGiven(env, params, final.state, final.sigs)
    && final.state.isFinal
  }

  /** forceFinalState: the final state is staged without a check, but enabled only with every signature. A signature that is
      missing in its slot does not verify. */
  method ForceFinalState(m: StateMachine, final: SignedState) returns (ok: bool)
    modifies m
    ensures ok <==> Forcible(m.env, m.params, final)
    ensures ok ==> m.Model() == old(m.Model()).(phase := Final, prev := old(m.prevTXs) + [old(m.currentTX)], staging := EMPTY_TX,
                                                current := Transaction(Some(final.state), final.sigs))
    ensures !ok ==> m.currentTX == old(m.currentTX) && m.prevTXs == old(m.prevTXs) && m.phase == Signing
  {
    var forced := m.ForceUpdate(final.state);
    for i := 0 to |final.sigs|
      invariant m.Model() == old(m.Model()).(phase := Signing, staging := m.stagingTX)
      invariant m.stagingTX.state == Some(final.state) && |m.stagingTX.sigs| == |m.params.parts| && i <= |m.params.parts|
      invariant forall k :: 0 <= k < i ==> final.sigs[k].Some? && m.env.verify(m.params.parts[k], final.state, final.sigs[k].value)
      invariant forall k :: 0 <= k < |m.stagingTX.sigs| ==> m.stagingTX.sigs[k] == if k < i then final.sigs[k] else None
    {
      if final.sigs[i].None? {
        return false;
      }
      var added := m.AddSig(i, final.sigs[i].value);
      if !added {
        return false;
      }
    }
    ghost var slots := m.stagingTX.sigs;
    assert |final.sigs| < |m.params.parts| ==> slots[|final.sigs|].None?;
    assert |final.sigs| == |m.params.parts| ==> slots == final.sigs;
    ok := m.EnableFinal();
  }

  /** matchSettlementProposal: all proposals show the same final state, and the hub's own virtual channel can be forced to it.
      Accepting the updates and closing the channel are left out; SetWithdrawn comes last and its error is only logged. */
  method MatchSettlement(virtual: StateMachine, props: seq<SettlementProposal>) returns (ok: bool, removed: bool)
    requires props != []
    modifies virtual
    ensures ok <==> (forall i :: 0 <= i < |props| ==> props[i].final.state == props[0].final.state) &&
                    Forcible(virtual.env, virtual.params, props[0].final)
    ensures ok ==> virtual.currentTX == Transaction(Some(props[0].final.state), props[0].final.sigs) && virtual.phase == Final
    ensures !removed
  {
    removed := false;
    for i := 0 to |props|
      invariant forall k :: 0 <= k < i ==> props[k].final.state == props[0].final.state
    {
      if props[i].final.state != props[0].final.state {
        ok := false;
        return;
      }
    }
    ok := ForceFinalState(virtual, props[0].final);
    if ok {
      removed := virtual.SetWithdrawn();
    }
  }

  /** For a settlement that the hub has accepted, the forced update succeeds exactly if no signature is missing and the state is
      final. */
  lemma ForceCatchesShortLists(env: Env, parent: State, prop: SettlementProposal)
    requires ValidSettlementProposal(env, parent, prop)
    ensures Forcible(env, prop.final.params, prop.final) <==>
              |prop.final.sigs| == |prop.final.params.parts| && prop.final.state.isFinal
  {
    AcceptedMeansSigned(env, parent, FundingProposal(parent, prop.final, []), prop);
  }

  // ----- what was signed by whom

  /** A signature that verifies was made by its participant. */
  ghost predicate Unforged(env: Env, params: Params, signed: set<(nat, State)>) {
    forall i, s, sig :: 0 <= i < |params.parts| && env.verify(params.parts[i], s, sig) ==> (i, s) in signed
  }

  /** A state with verifying signatures of two honest participants was signed by both, and is at most one version ahead of what
      either of them has as its current state. */
  lemma OnlyWhatBothSigned(env: Env, params: Params, events: seq<Divergence.Event>, final: SignedState)
    requires |params.parts| == 2 && Divergence.HonestRun(env, params, events)
    requires Unforged(env, params, Divergence.DuoRun(env, params, events).signed)
    requires final.params == params && VerifiesWhereGiven(env, params, final.state, final.sigs) && |final.sigs| == 2
    ensures var d := Divergence.DuoRun(env, params, events);
            && (0, final.state) in d.signed && (1, final.state) in d.signed
            && final.state.version <= Divergence.Version(d.m0) + 1 && final.state.version <= Divergence.Version(d.m1) + 1
  {
    Divergence.BoundedDivergence(env, params, events);
    var d := Divergence.DuoRun(env, params, events);
    assert env.verify(params.parts[0], final.state, final.sigs[0].value);
    assert env.verify(params.parts[1], final.state, final.sigs[1].value);
    var a, b := (0, final.state), (1, final.state);
    assert a in d.signed && b in d.signed;
    assert d.Get(a.0) == d.m0 && d.Get(b.0) == d.m1;
  }

  /** So of an accepted settlement with every slot given, and of an accepted funding with every slot given. */
  lemma SettledStateWasSigned(env: Env, params: Params, events: seq<Divergence.Event>, parent: State, prop: SettlementProposal)
    requires |params.parts| == 2 && Divergence.HonestRun(env, params, events)
    requires Unforged(env, params, Divergence.DuoRun(env, params, events).signed)
    requires ValidSettlementProposal(env, parent, prop) && prop.final.params == params && |prop.final.sigs| == 2
    ensures var d, s := Divergence.DuoRun(env, params, events), prop.final.state;
            && (0, s) in d.signed && (1, s) in d.signed
            && s.version <= Divergence.Version(d.m0) + 1 && s.version <= Divergence.Version(d.m1) + 1
  {
    AcceptedMeansSigned(env, parent, FundingProposal(parent, prop.final, []), prop);
    OnlyWhatBothSigned(env, params, events, prop.final);
  }

  lemma FundedStateWasSigned(env: Env, params: Params, events: seq<Divergence.Event>, parent: State, prop: FundingProposal)
    requires |params.parts| == 2 && Divergence.HonestRun(env, params, events)
    requires Unforged(env, params, Divergence.DuoRun(env, params, events).signed)
    requires ValidFundingProposal(env, parent, prop) && prop.initial.params == params && |prop.initial.sigs| == 2
    ensures var d, s := Divergence.DuoRun(env, params, events), prop.initial.state;
            && (0, s) in d.signed && (1, s) in d.signed
            && s.version <= Divergence.Version(d.m0) + 1 && s.version <= Divergence.Version(d.m1) + 1
  {
    AcceptedMeansSigned(env, parent, prop, SettlementProposal(parent, prop.initial));
    OnlyWhatBothSigned(env, params, events, prop.initial);
  }

  // ----- what a settlement pays

  /** An accepted settlement pays each participant of the virtual channel, at the place in the parent that the entry's map gives it,
      exactly its final balances, and nobody else anything; the entry held exactly the channel's totals and is gone. */
  lemma SettlementPays(env: Env, parent: State, prop: SettlementProposal, asset: nat)
    requires ValidSettlementProposal(env, parent, prop) && asset < |parent.alloc.balances|
    requires var m := FindSubAlloc(parent.alloc, prop.final.state.id).value.indexMap;
             Injective(m) && Exact(prop.final.state.alloc.balances, m)
    ensures var entry := FindSubAlloc(parent.alloc, prop.final.state.id).value;
            var before, after, final := parent.alloc.balances, prop.next.alloc.balances, prop.final.state.alloc;
            && |before| == |after| == |final.balances| == |entry.bals| && |before[asset]| == |after[asset]|
            && entry.bals[asset] == Sum(final.balances[asset]) + LockedTotal(final.locked, asset)
            && (forall k :: 0 <= k < |prop.next.alloc.locked| ==> prop.next.alloc.locked[k].id != prop.final.state.id)
            && (forall j :: 0 <= j < |entry.indexMap| ==>
                  var u := entry.indexMap[j];
                  u < |before[asset]| && after[asset][u] - before[asset][u] == final.balances[asset][j])
            && (forall u :: 0 <= u < |before[asset]| && u !in entry.indexMap ==> after[asset][u] == before[asset][u])
  {
    var entry := FindSubAlloc(parent.alloc, prop.final.state.id).value;
    var n := |parent.alloc.balances[0]|;
    var row := prop.final.state.alloc.balances[asset];
    ScatterAt(row, n, entry.indexMap, |entry.indexMap|);
    assert entry.indexMap[..|entry.indexMap|] == entry.indexMap;
    assert prop.next.alloc.balances[asset] ==
           AddRow(parent.alloc.balances[asset], Transform(prop.final.state.alloc.balances, n, entry.indexMap)[asset]);
  }

  /** An accepted funding is of a virtual channel that locks nothing, under its own ID, with a place for each participant; its new
      entry holds exactly the channel's totals, and the parent has what the entry's map takes. */
  lemma FundingLocks(env: Env, parent: State, prop: FundingProposal)
    requires ValidFundingProposal(env, parent, prop)
    ensures var id, initial := prop.initial.state.id, prop.initial.state.alloc;
            && prop.initial.params.id == id && prop.initial.params.virtual && initial.locked == []
            && |prop.indexMap| == |prop.initial.params.parts| && initial.assets == parent.alloc.assets
            && (forall k :: 0 <= k < |parent.alloc.locked| ==> parent.alloc.locked[k].id != id)
            && exists k: nat :: LocksTotals(prop.next.alloc, k, id, initial) && Payable(parent.alloc, initial, prop.next.alloc.locked[k].indexMap)
  {
    var k := FindFrom(prop.next.alloc.locked, prop.initial.state.id, 0).value;
    NothingLockedSum(prop.initial.state.alloc);
    assert LocksTotals(prop.next.alloc, k, prop.initial.state.id, prop.initial.state.alloc);
    assert Payable(parent.alloc, prop.initial.state.alloc, prop.next.alloc.locked[k].indexMap);
  }

  predicate LocksTotals(a: Allocation, k: nat, id: ID, initial: Allocation) {
    && k < |a.locked| && a.locked[k].id == id && |a.locked[k].bals| == |initial.balances|
    && forall i :: 0 <= i < |initial.balances| ==> a.locked[k].bals[i] == Sum(initial.balances[i])
  }

  predicate Payable(parent: Allocation, initial: Allocation, m: seq<Index>) {
    && parent.balances != [] && Covers(initial.balances, m) && InRange(m, |parent.balances[0]|)
    && GreaterOrEqual(parent.balances, Transform(initial.balances, |parent.balances[0]|, m))
  }
}

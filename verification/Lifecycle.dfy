/** How a channel starts and ends: the opening with all signatures, what it leaves in the history, and the ways to
    withdraw (channel/machine.go, channel/statemachine.go, channel/state.go). */
module Lifecycle {
  import opened Base
  import opened Sums
  import opened Allocations
  import opened States
  import opened Machines
  import opened Rounds

  // ----- initialising

  function InitialState(params: Params, alloc: Allocation, data: bytes): State {
    State(params.id, 0, params.app, alloc, data, false)
  }

  /** One balance per participant and asset, and the app accepts. */
  predicate Opens(env: Env, params: Params, alloc: Allocation, data: bytes) {
    && WellFormed(alloc, |params.parts|)
    && if params.app.NoApp? then data == [] else env.validInit(params, InitialState(params, alloc, data))
  }

  function NoSigs(n: nat): seq<Option<Sig>> {
    seq(n, i => None)
  }

  /** Init stages exactly the given allocation and data, for every allocation of the right shape that the app accepts. */
  lemma InitIff(env: Env, m: Machine, alloc: Allocation, data: bytes)
    ensures Apply(env, m, Init(alloc, data)) ==
            if m.phase == InitActing && Opens(env, m.params, alloc, data)
            then Some(m.(phase := InitSigning, staging := Transaction(Some(InitialState(m.params, alloc, data)), NoSigs(|m.params.parts|))))
            else None
  {
    WellFormedIff(alloc);
    if n: nat :| WellFormed(alloc, n) {
      assert |alloc.balances[0]| == n;
    }
    assert NoSigs(|m.params.parts|) == NewTx(m, InitialState(m.params, alloc, data)).sigs;
  }

  /** After a successful Init: its state is staged until it is the first entry of the history, for good. */
  ghost predicate InitInv(m: Machine, s: State) {
    && m.phase != InitActing
    && (m.phase == InitSigning ==> m.staging.state == Some(s))
    && (|History(m)| > 1 ==> History(m)[1].state == Some(s))
  }

  lemma InitStep(env: Env, m: Machine, op: Op, s: State)
    requires OffChain(op) && HistoryInv(m) && PhaseInv(m) && InitInv(m, s)
    ensures InitInv(Step(env, m, op), s)
  {
    var n := Step(env, m, op);
    PhaseStep(env, m, op);
    KeepsTransactions(env, m, op);
    if n.prev == m.prev && n.current == m.current {
      assert History(n) == History(m);
    } else {
      assert History(n) == History(m) + [m.staging];
      if m.phase == InitSigning {
        assert |History(m)| == 1 by {
          assert History(m)[|History(m)| - 1] == m.current == EMPTY_TX;
        }
      } else {
        assert |History(m)| > 1;
      }
    }
  }

  lemma {:induction false} InitStays(env: Env, m: Machine, ops: seq<Op>, s: State)
    requires HistoryInv(m) && PhaseInv(m) && InitInv(m, s)
    requires forall i :: 0 <= i < |ops| ==> OffChain(ops[i])
    ensures HistoryInv(Run(env, m, ops)) && PhaseInv(Run(env, m, ops)) && InitInv(Run(env, m, ops), s)
  {
    if ops != [] {
      var init := ops[..|ops| - 1];
      InitStays(env, m, init, s);
      HistoryStep(env, Run(env, m, init), ops[|ops| - 1]);
      InitStep(env, Run(env, m, init), ops[|ops| - 1], s);
    }
  }

  /** In every off-chain run in which Init succeeded at some point, version 0 in the history has exactly the allocation
      and data it was given, the channel's ID and its app. */
  lemma InitialEntry(env: Env, params: Params, idx: Index, before: seq<Op>, alloc: Allocation, data: bytes, after: seq<Op>)
    requires forall i :: 0 <= i < |before| ==> OffChain(before[i])
    requires forall i :: 0 <= i < |after| ==> OffChain(after[i])
    requires Apply(env, Run(env, NewMachine(params, idx), before), Init(alloc, data)).Some?
    ensures var h := History(Run(env, NewMachine(params, idx), before + [Init(alloc, data)] + after));
            |h| > 1 ==> h[1].state == Some(State(params.id, 0, params.app, alloc, data, false))
  {
    var m0 := NewMachine(params, idx);
    var m := Run(env, m0, before);
    HistoryOnEveryRun(env, params, idx, before);
    RunKeepsIdentity(env, m0, before);
    InitIff(env, m, alloc, data);
    assert (before + [Init(alloc, data)])[..|before|] == before;
    var n := Run(env, m0, before + [Init(alloc, data)]);
    assert n == Step(env, m, Init(alloc, data));
    HistoryStep(env, m, Init(alloc, data));
    assert |History(m)| == 1 by {
      assert History(m)[|History(m)| - 1] == m.current == EMPTY_TX;
    }
    assert History(n) == History(m);
    InitStays(env, n, after, InitialState(params, alloc, data));
    RunAppend(env, m0, before + [Init(alloc, data)], after);
  }

  // ----- signing by all

  /** Adding the signatures that are there, in order. */
  function FillOps(sigs: seq<Option<Sig>>): seq<Op> {
    if sigs == [] then []
    else
      var k := |sigs| - 1;
      FillOps(sigs[..k]) + if sigs[k].Some? then [AddSig(k, sigs[k].value)] else []
  }

  function Filled(slots: seq<Option<Sig>>, sigs: seq<Option<Sig>>): seq<Option<Sig>>
    requires |sigs| <= |slots|
  {
    seq(|slots|, i requires 0 <= i < |slots| => if i < |sigs| && sigs[i].Some? then sigs[i] else slots[i])
  }

  predicate Addable(env: Env, params: Params, tx: Transaction, sigs: seq<Option<Sig>>) {
    && tx.state.Some? && |sigs| <= |tx.sigs| == |params.parts|
    && forall i :: 0 <= i < |sigs| && sigs[i].Some? ==> tx.sigs[i].None? && env.verify(params.parts[i], tx.state.value, sigs[i].value)
  }

  lemma FilledNext(slots: seq<Option<Sig>>, sigs: seq<Option<Sig>>)
    requires sigs != [] && |sigs| <= |slots|
    ensures var k := |sigs| - 1;
            Filled(slots, sigs) == if sigs[k].Some? then Filled(slots, sigs[..k])[k := sigs[k]] else Filled(slots, sigs[..k])
  {
  }

  lemma OneGetsIn(env: Env, m: Machine, k: Index, sig: Sig)
    requires IsSigning(m.phase) && m.staging.state.Some? && k < |m.staging.sigs| <= |m.params.parts|
    requires m.staging.sigs[k].None? && env.verify(m.params.parts[k], m.staging.state.value, sig)
    ensures Run(env, m, [AddSig(k, sig)]) == m.(staging := m.staging.(sigs := m.staging.sigs[k := Some(sig)]))
  {
    OneOp(env, m, AddSig(k, sig));
  }

  /** Verifying signatures for free slots all get in. */
  lemma {:induction false} Filling(env: Env, m: Machine, sigs: seq<Option<Sig>>)
    requires IsSigning(m.phase) && Addable(env, m.params, m.staging, sigs)
    ensures Run(env, m, FillOps(sigs)) == m.(staging := m.staging.(sigs := Filled(m.staging.sigs, sigs)))
  {
    if sigs == [] {
      assert Filled(m.staging.sigs, sigs) == m.staging.sigs;
    } else {
      var k := |sigs| - 1;
      var n := m.(staging := m.staging.(sigs := Filled(m.staging.sigs, sigs[..k])));
      Filling(env, m, sigs[..k]);
      FilledNext(m.staging.sigs, sigs);
      if sigs[k].Some? {
        RunAppend(env, m, FillOps(sigs[..k]), [AddSig(k, sigs[k].value)]);
        OneGetsIn(env, n, k, sigs[k].value);
        assert FillOps(sigs) == FillOps(sigs[..k]) + [AddSig(k, sigs[k].value)];
      } else {
        assert FillOps(sigs) == FillOps(sigs[..k]);
      }
    }
  }

  lemma OneOp(env: Env, m: Machine, op: Op)
    ensures Run(env, m, [op]) == Step(env, m, op)
  {
    assert [op][..0] == [];
  }

  /** Every other participant's signature is there and verifies. */
  predicate SignedByOthers(env: Env, params: Params, idx: Index, s: State, sigs: seq<Option<Sig>>) {
    && |sigs| == |params.parts| && idx < |sigs| && sigs[idx].None?
    && forall i :: 0 <= i < |sigs| && i != idx ==> sigs[i].Some? && env.verify(params.parts[i], s, sigs[i].value)
  }

  function OpeningOps(alloc: Allocation, data: bytes, sigs: seq<Option<Sig>>): seq<Op> {
    [Init(alloc, data), Sign] + FillOps(sigs) + [EnableInit, SetFunded]
  }

  function WithOwn(env: Env, params: Params, idx: Index, s: State, sigs: seq<Option<Sig>>): seq<Option<Sig>>
    requires idx < |sigs| && idx < |params.parts|
  {
    sigs[idx := Some(env.sign(params.parts[idx], s))]
  }

  lemma OpeningStaged(env: Env, params: Params, idx: Index, alloc: Allocation, data: bytes)
    requires Opens(env, params, alloc, data) && idx < |params.parts|
    ensures var s := InitialState(params, alloc, data);
            var own := NoSigs(|params.parts|)[idx := Some(env.sign(params.parts[idx], s))];
            Run(env, NewMachine(params, idx), [Init(alloc, data), Sign]) ==
            Machine(InitSigning, idx, params, Transaction(Some(s), own), EMPTY_TX, [])
  {
    var m := NewMachine(params, idx);
    InitIff(env, m, alloc, data);
    OneOp(env, m, Init(alloc, data));
    assert [Init(alloc, data), Sign][..1] == [Init(alloc, data)];
  }

  lemma EnabledAndFunded(env: Env, m: Machine)
    requires m.phase == InitSigning && m.staging.state.Some? && !m.staging.state.value.isFinal && FullySigned(m.staging)
    ensures Run(env, m, [EnableInit, SetFunded]) ==
            m.(phase := Acting, prev := m.prev + [m.current], current := m.staging, staging := EMPTY_TX)
  {
    TwoOps(env, m, EnableInit, SetFunded);
  }

  /** A channel of any number of participants opens: with every signature there, each participant's machine ends up in
      phase Acting with exactly the agreed allocation as its current, fully signed state. */
  lemma OpeningGoesThrough(env: Env, params: Params, idx: Index, alloc: Allocation, data: bytes, sigs: seq<Option<Sig>>)
    requires Opens(env, params, alloc, data) && SignedByOthers(env, params, idx, InitialState(params, alloc, data), sigs)
    ensures var s := InitialState(params, alloc, data);
            Run(env, NewMachine(params, idx), OpeningOps(alloc, data, sigs)) ==
            Machine(Acting, idx, params, EMPTY_TX, Transaction(Some(s), WithOwn(env, params, idx, s, sigs)), [EMPTY_TX])
  {
    var m, s := NewMachine(params, idx), InitialState(params, alloc, data);
    OpeningStaged(env, params, idx, alloc, data);
    var m2 := Run(env, m, [Init(alloc, data), Sign]);
    Filling(env, m2, sigs);
    var m3 := Run(env, m2, FillOps(sigs));
    assert m3.staging.sigs == WithOwn(env, params, idx, s, sigs);
    RunAppend(env, m, [Init(alloc, data), Sign], FillOps(sigs));
    EnabledAndFunded(env, m3);
    RunAppend(env, m, [Init(alloc, data), Sign] + FillOps(sigs), [EnableInit, SetFunded]);
  }

  lemma TwoOps(env: Env, m: Machine, a: Op, b: Op)
    ensures Run(env, m, [a, b]) == Step(env, Step(env, m, a), b)
  {
    OneOp(env, m, a);
    assert [a, b][..1] == [a];
  }

  lemma ThreeOps(env: Env, m: Machine, a: Op, b: Op, c: Op)
    ensures Run(env, m, [a, b, c]) == Step(env, Step(env, Step(env, m, a), b), c)
  {
    TwoOps(env, m, a, b);
    assert [a, b, c][..2] == [a, b];
  }

  /** A signature is refused outside the signing phases, for a slot that is filled or that nobody has, and if it does not verify for
      its participant on the staged state; otherwise it fills its slot and nothing else changes. */
  lemma SignatureRefusedIff(env: Env, m: Machine, i: Index, sig: Sig)
    requires |m.staging.sigs| <= |m.params.parts|
    ensures var r := Apply(env, m, AddSig(i, sig));
            && (r.None? <==> m.phase !in {InitSigning, Signing, Progressing} || m.staging.state.None? || i >= |m.staging.sigs| ||
                             m.staging.sigs[i].Some? || !env.verify(m.params.parts[i], m.staging.state.value, sig))
            && (r.Some? ==> r.value == m.(staging := m.staging.(sigs := m.staging.sigs[i := Some(sig)])))
  {
  }

  /** A staged state is enabled exactly with all signatures and in its phase: as the initial one, as a further one that is not final, or
      as the final one. */
  lemma EnabledIff(env: Env, m: Machine)
    ensures var complete := m.staging.state.Some? && forall i :: 0 <= i < |m.staging.sigs| ==> m.staging.sigs[i].Some?;
            && (Apply(env, m, EnableInit).Some? <==> m.phase == InitSigning && complete && !m.staging.state.value.isFinal)
            && (Apply(env, m, EnableUpdate).Some? <==> m.phase == Signing && complete && !m.staging.state.value.isFinal)
            && (Apply(env, m, EnableFinal).Some? <==> m.phase == Signing && complete && m.staging.state.value.isFinal)
  {
  }

  // ----- closing

  /** The cooperative end: a fully signed final state is enabled and withdrawn, and is the last entry of the history. */
  lemma FinalStateWithdrawn(env: Env, m: Machine)
    requires m.phase == Signing && m.staging.state.Some? && m.staging.state.value.isFinal && FullySigned(m.staging)
    ensures Run(env, m, [EnableFinal, SetWithdrawing, SetWithdrawn]) ==
            m.(phase := Withdrawn, prev := m.prev + [m.current], current := m.staging, staging := EMPTY_TX)
  {
    ThreeOps(env, m, EnableFinal, SetWithdrawing, SetWithdrawn);
  }

  /** The disputed end: the machine can be registered and withdrawn exactly if its channel has a signed state, that is, from
      phase Funding on; the transactions stay. */
  lemma RegisteredWithdrawnIff(env: Env, m: Machine)
    ensures Run(env, m, [SetRegistering, SetRegistered] + [SetWithdrawing, SetWithdrawn]) ==
            if m.phase == InitActing || m.phase == InitSigning then m else m.(phase := Withdrawn)
  {
    TwoOps(env, m, SetRegistering, SetRegistered);
    var n := Run(env, m, [SetRegistering, SetRegistered]);
    TwoOps(env, n, SetWithdrawing, SetWithdrawn);
    RunAppend(env, m, [SetRegistering, SetRegistered], [SetWithdrawing, SetWithdrawn]);
  }

  lemma WithdrawnFrom(env: Env, m: Machine)
    requires m.phase in {Final, Registered, Progressed, Withdrawing}
    ensures Run(env, m, [SetWithdrawing, SetWithdrawn]) == m.(phase := Withdrawn)
  {
    TwoOps(env, m, SetWithdrawing, SetWithdrawn);
  }

  lemma ProgressedTo(env: Env, m: Machine, s: State)
    requires m.phase != InitActing && m.phase != InitSigning
    ensures Run(env, m, [SetRegistered, SetProgressing(s), SetProgressed(s)]) ==
            m.(phase := Progressed, prev := m.prev + [m.current], staging := EMPTY_TX,
               current := Transaction(Some(s), NoSigs(|m.params.parts|)))
  {
    ThreeOps(env, m, SetRegistered, SetProgressing(s), SetProgressed(s));
    assert NewTx(m, s).sigs == NoSigs(|m.params.parts|);
  }

  /** The disputed end with a state progressed on-chain: that state, unsigned, is the last entry of the history. */
  lemma ProgressedWithdrawn(env: Env, m: Machine, s: State)
    requires m.phase != InitActing && m.phase != InitSigning
    ensures Run(env, m, [SetRegistered, SetProgressing(s), SetProgressed(s)] + [SetWithdrawing, SetWithdrawn]) ==
            m.(phase := Withdrawn, prev := m.prev + [m.current], staging := EMPTY_TX,
               current := Transaction(Some(s), NoSigs(|m.params.parts|)))
  {
    ProgressedTo(env, m, s);
    WithdrawnFrom(env, Run(env, m, [SetRegistered, SetProgressing(s), SetProgressed(s)]));
    RunAppend(env, m, [SetRegistered, SetProgressing(s), SetProgressed(s)], [SetWithdrawing, SetWithdrawn]);
  }

  // ----- the table of transitions

  /** validPhaseTransitions. */
  const TRANSITIONS: set<(Phase, Phase)> := {
    (InitActing, InitSigning), (InitSigning, Funding), (Funding, Acting), (Acting, Signing), (Signing, Acting), (Signing, Final),
    (Funding, Registering), (Acting, Registering), (Signing, Registering), (Final, Registering),
    (Funding, Registered), (Acting, Registered), (Signing, Registered), (Final, Registered), (Registering, Registered),
    (Registered, Withdrawing), (Registered, Progressed), (Progressing, Progressed), (Progressed, Withdrawing), (Withdrawing, Withdrawn)}

  /** What the code allows beyond the table: withdrawing a final or withdrawing channel, progressing, registering at any
      later time, and the two forced operations from everywhere. */
  predicate BeyondTable(op: Op, from: Phase, to: Phase) {
    || (op.SetWithdrawing? && from in {Final, Withdrawing} && to == Withdrawing)
    || (op.SetProgressing? && from in {Registered, Progressed} && to == Progressing)
    || (op.SetRegistering? && from !in {InitActing, InitSigning} && to == Registering)
    || (op.SetRegistered? && from !in {InitActing, InitSigning} && to == Registered)
    || (op.ForceUpdate? && to == Signing)
    || (op.SetProgressed? && to == Progressed)
  }

  lemma PhasesFollowTable(env: Env, m: Machine, op: Op)
    requires Apply(env, m, op).Some?
    ensures var to := Apply(env, m, op).value.phase;
            (m.phase, to) in TRANSITIONS || BeyondTable(op, m.phase, to) || (to == m.phase && (op.Sign? || op.AddSig?))
  {
  }

  /** What a transition of the table needs besides its phase. */
  predicate Ready(env: Env, m: Machine, to: Phase) {
    match to
    case InitSigning => true
    case Funding => m.staging.state.Some? && FullySigned(m.staging) && !m.staging.state.value.isFinal
    case Final => m.staging.state.Some? && FullySigned(m.staging) && m.staging.state.value.isFinal
    case _ => true
  }

  /** The operation that makes a transition of the table. */
  function OpFor(from: Phase, to: Phase, alloc: Allocation, data: bytes, s: State): Op {
    match to
    case InitSigning => Init(alloc, data)
    case Funding => EnableInit
    case Acting => if from == Funding then SetFunded else DiscardUpdate
    case Signing => Update(s, 0)
    case Final => EnableFinal
    case Registering => SetRegistering
    case Registered => SetRegistered
    case Progressed => SetProgressed(s)
    case Withdrawing => SetWithdrawing
    case Withdrawn => SetWithdrawn
    case _ => Sign
  }

  /** Every transition of the table can be made: at once, or as soon as what it enables is fully signed, or for an acceptable
      allocation or state. */
  lemma TransitionsHappen(env: Env, m: Machine, to: Phase, alloc: Allocation, data: bytes, s: State)
    requires (m.phase, to) in TRANSITIONS && Ready(env, m, to)
    requires to == InitSigning ==> Opens(env, m.params, alloc, data)
    requires to == Signing ==> |m.params.parts| > 0 && m.current.state.Some? && m.current.state.value.version < UINT64_SIZE &&
                               Successor(env, m.params, m.current.state.value, s, 0)
    ensures var r := Apply(env, m, OpFor(m.phase, to, alloc, data, s)); r.Some? && r.value.phase == to
  {
    if to == InitSigning {
      InitIff(env, m, alloc, data);
    }
    if to == Signing {
      SuccessorIff(env, m.params, m.current.state.value, s, 0);
    }
  }
}

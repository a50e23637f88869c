/** The state machine as the object the source updates in place. Every method is tied to the
    operation of the value model, whose runs carry the invariants. */
module StateMachines {
  import opened Base
  import opened Allocations
  import opened States
  import opened Machines

  /** wallet.IndexOfAddr. */
  method IndexOfAddr(parts: seq<Address>, a: Address) returns (i: Option<nat>)
    ensures i.None? <==> a !in parts
    ensures i.Some? ==> i.value < |parts| && parts[i.value] == a && a !in parts[..i.value]
  {
    for k := 0 to |parts|
      invariant a !in parts[..k]
    {
      if parts[k] == a {
        return Some(k);
      }
    }
    i := None;
  }

  class StateMachine {
    const env: Env
    const idx: Index
    const params: Params
    var phase: Phase
    var stagingTX: Transaction
    var currentTX: Transaction
    var prevTXs: seq<Transaction>

    /** The machine as a value. */
    function Model(): Machine
      reads this
    {
      Machine(phase, idx, params, stagingTX, currentTX, prevTXs)
    }

    /** The object moved by one operation of the model and ok says whether the operation succeeded. */
    twostate predicate Does(op: Op, ok: bool)
      reads this
    {
      ok == Apply(env, old(Model()), op).Some? && Model() == Step(env, old(Model()), op)
    }

    constructor (env: Env, params: Params, idx: Index)
      ensures Model() == NewMachine(params, idx) && this.env == env
    {
      this.env, this.idx, this.params := env, idx, params;
      phase, stagingTX, currentTX, prevTXs := InitActing, EMPTY_TX, EMPTY_TX, [];
    }

    method SetStaging(p: Phase, s: State)
      modifies this
      ensures Model() == Stage(old(Model()), p, s)
    {
      stagingTX := Transaction(Some(s), seq(|params.parts|, i => None));
      phase := p;
    }

    method AddTx(tx: Transaction)
      modifies this
      ensures Model() == Promote(old(Model()), old(phase), tx)
    {
      prevTXs := prevTXs + [currentTX];
      currentTX := tx;
      stagingTX := EMPTY_TX;
    }

    method Init(alloc: Allocation, data: bytes) returns (ok: bool)
      modifies this
      ensures Does(Op.Init(alloc, data), ok)
    {
      if phase != InitActing {
        return false;
      }
      var s := NewState(params, alloc, data);
      if s.None? || !AppAcceptsInit(env, params, s.value) {
        return false;
      }
      SetStaging(InitSigning, s.value);
      ok := true;
    }

    /** Read-only. In phase Acting it tells exactly whether staging the state and adding the signature to it would
        both succeed; the phase itself is not looked at. */
    method CheckUpdate(s: State, actor: Index, sig: Sig, signer: Index) returns (ok: bool)
      requires currentTX.state.Some? && signer < |params.parts|
      ensures phase == Acting ==>
                (ok <==> var staged := Apply(env, Model(), Op.Update(s, actor));
                         staged.Some? && Apply(env, staged.value, Op.AddSig(signer, sig)).Some?)
      ensures ok <==> ValidAppTransition(env, params, currentTX.state.value, s, actor) &&
                      env.verify(params.parts[signer], s, sig)
    {
      if !ValidAppTransition(env, params, currentTX.state.value, s, actor) {
        return false;
      }
      ok := env.verify(params.parts[signer], s, sig);
    }

    method Update(s: State, actor: Index) returns (ok: bool)
      modifies this
      ensures Does(Op.Update(s, actor), ok)
    {
      if phase != Acting {
        return false;
      }
      if currentTX.state.None? || !ValidAppTransition(env, params, currentTX.state.value, s, actor) {
        return false;
      }
      SetStaging(Signing, s);
      ok := true;
    }

    method ForceUpdate(s: State) returns (ok: bool)
      modifies this
      ensures Does(Op.ForceUpdate(s), ok)
    {
      SetStaging(Signing, s);
      ok := true;
    }

    method Sig() returns (sig: Option<Sig>)
      modifies this
      ensures Does(Op.Sign, sig.Some?)
      ensures sig.Some? ==> idx < |stagingTX.sigs| && stagingTX.sigs[idx] == sig
    {
      if !IsSigning(phase) || stagingTX.state.None? || idx >= |stagingTX.sigs| || idx >= |params.parts| {
        return None;
      }
      if stagingTX.sigs[idx].None? {
        var own := env.sign(params.parts[idx], stagingTX.state.value);
        stagingTX := stagingTX.(sigs := stagingTX.sigs[idx := Some(own)]);
      }
      sig := stagingTX.sigs[idx];
    }

    method AddSig(i: Index, sig: Sig) returns (ok: bool)
      modifies this
      ensures Does(Op.AddSig(i, sig), ok)
    {
      if !IsSigning(phase) || stagingTX.state.None? || i >= |stagingTX.sigs| || i >= |params.parts| {
        return false;
      }
      if stagingTX.sigs[i].Some? || !env.verify(params.parts[i], stagingTX.state.value, sig) {
        return false;
      }
      stagingTX := stagingTX.(sigs := stagingTX.sigs[i := Some(sig)]);
      ok := true;
    }

    method DiscardUpdate() returns (ok: bool)
      modifies this
      ensures Does(Op.DiscardUpdate, ok)
    {
      if phase != Signing {
        return false;
      }
      stagingTX := EMPTY_TX;
      phase := Acting;
      ok := true;
    }

    /** enableStaged: the slots are inspected one after the other. */
    method EnableStaged(from: Phase, to: Phase) returns (ok: bool)
      modifies this
      ensures ok == Enable(old(Model()), from, to).Some?
      ensures Model() == if ok then Enable(old(Model()), from, to).value else old(Model())
    {
      if phase != from || stagingTX.state.None? {
        return false;
      }
      if (to == Final) != stagingTX.state.value.isFinal {
        return false;
      }
      for i := 0 to |stagingTX.sigs|
        invariant Model() == old(Model())
        invariant forall k :: 0 <= k < i ==> stagingTX.sigs[k].Some?
      {
        if stagingTX.sigs[i].None? {
          return false;
        }
      }
      phase := to;
      AddTx(stagingTX);
      ok := true;
    }

    method EnableInit() returns (ok: bool)
      modifies this
      ensures Does(Op.EnableInit, ok)
    {
      ok := EnableStaged(InitSigning, Funding);
    }

    method EnableUpdate() returns (ok: bool)
      modifies this
      ensures Does(Op.EnableUpdate, ok)
    {
      ok := EnableStaged(Signing, Acting);
    }

    method EnableFinal() returns (ok: bool)
      modifies this
      ensures Does(Op.EnableFinal, ok)
    {
      ok := EnableStaged(Signing, Final);
    }

    method SimplePhaseTransition(from: Phase, to: Phase) returns (ok: bool)
      modifies this`phase
      ensures ok == (old(phase) == from) && phase == if ok then to else old(phase)
    {
      ok := phase == from;
      if ok {
        phase := to;
      }
    }

    method SetFunded() returns (ok: bool)
      modifies this`phase
      ensures Does(Op.SetFunded, ok)
    {
      ok := SimplePhaseTransition(Funding, Acting);
    }

    method SetRegistering() returns (ok: bool)
      modifies this`phase
      ensures Does(Op.SetRegistering, ok)
    {
      if Rank(phase) < Rank(Funding) {
        return false;
      }
      phase := Registering;
      ok := true;
    }

    method SetRegistered() returns (ok: bool)
      modifies this`phase
      ensures Does(Op.SetRegistered, ok)
    {
      if Rank(phase) < Rank(Funding) {
        return false;
      }
      phase := Registered;
      ok := true;
    }

    method SetProgressing(s: State) returns (ok: bool)
      modifies this
      ensures Does(Op.SetProgressing(s), ok)
    {
      if phase !in {Registered, Progressed} {
        return false;
      }
      SetStaging(Progressing, s);
      ok := true;
    }

    method SetProgressed(s: State) returns (ok: bool)
      modifies this
      ensures Does(Op.SetProgressed(s), ok)
    {
      phase := Progressed;
      AddTx(Transaction(Some(s), seq(|params.parts|, i => None)));
      ok := true;
    }

    method SetWithdrawing() returns (ok: bool)
      modifies this`phase
      ensures Does(Op.SetWithdrawing, ok)
    {
      if phase !in {Final, Registered, Progressed, Withdrawing} {
        return false;
      }
      phase := Withdrawing;
      ok := true;
    }

    method SetWithdrawn() returns (ok: bool)
      modifies this`phase
      ensures Does(Op.SetWithdrawn, ok)
    {
      ok := SimplePhaseTransition(Withdrawing, Withdrawn);
    }
  }

  /** newMachine: the machine of the participant with the account's address. */
  method NewStateMachine(env: Env, params: Params, account: Address) returns (m: Option<StateMachine>)
    ensures m.None? <==> account !in params.parts
    ensures m.Some? ==>
              && fresh(m.value) && m.value.env == env && m.value.Model() == NewMachine(params, m.value.idx)
              && m.value.idx < |params.parts| && params.parts[m.value.idx] == account && account !in params.parts[..m.value.idx]
  {
    var idx := IndexOfAddr(params.parts, account);
    if idx.None? {
      return None;
    }
    var machine := new StateMachine(env, params, idx.value);
    m := Some(machine);
  }
}

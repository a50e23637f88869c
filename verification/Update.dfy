/** The channel controller of the update protocol as an object that drives its state machine
    (client/update.go). Each method is one step of the protocol model. */
module Updates {
  import opened Base
  import opened Allocations
  import opened States
  import opened Machines
  import opened StateMachines
  import opened Agreement

  class Channel {
    const machine: StateMachine
    var loc: Loc
    var props: seq<Proposal>
    var accs: seq<Accept>
    var rejs: seq<Reject>

    constructor (machine: StateMachine)
      ensures this.machine == machine && AsParty() == Party(machine.Model(), Idle, [], [], [])
    {
      this.machine := machine;
      loc, props, accs, rejs := Idle, [], [], [];
    }

    ghost function AsParty(): Party
      reads this, machine
    {
      Party(machine.Model(), loc, props, accs, rejs)
    }

    /** What the step does to the pair of this party and any peer. */
    twostate function After(e: Event, peer: Party): Pair
      reads this, machine
    {
      Act(machine.env, Pair(old(AsParty()), peer), e)
    }

    /** validTwoPartyUpdate: the actor is the signer and sub-allocations do not change. */
    method ValidTwoPartyUpdate(next: State, actor: Index, signer: Index) returns (ok: bool)
      requires machine.currentTX.state.Some?
      ensures ok <==> actor == signer && SubAllocsEqual(machine.currentTX.state.value.alloc.locked, next.alloc.locked)
    {
      if actor != signer {
        return false;
      }
      var was := machine.currentTX.state.value.alloc.locked;
      if |was| != |next.alloc.locked| {
        return false;
      }
      for i := 0 to |was|
        invariant forall k :: 0 <= k < i ==> SubAllocEqual(was[k], next.alloc.locked[k])
      {
        if !SubAllocEqual(was[i], next.alloc.locked[i]) {
          return false;
        }
      }
      ok := true;
    }

    /** updateGeneric up to sending the proposal. */
    method StageAndSign(next: State) returns (ok: bool)
      requires loc == Idle && machine.idx < |machine.params.parts|
      modifies this, machine
      ensures AsParty() == After(Propose(next), AsParty()).me
      ensures ok <==> loc == Signed
    {
      ok := machine.Update(next, machine.idx);
      if ok {
        var sig := machine.Sig();
        loc := Signed;
      }
    }

    /** updateGeneric: conn.Send of the proposal succeeded. */
    method SendProposal() returns (prop: Proposal)
      requires loc == Signed && machine.stagingTX.state.Some?
      requires machine.idx < |machine.stagingTX.sigs| && machine.stagingTX.sigs[machine.idx].Some?
      modifies this
      ensures forall peer: Party ::
                After(Event.SendProposal, peer) == Pair(AsParty(), peer.(props := peer.props + [prop]))
    {
      prop := Proposal(machine.stagingTX.state.value, machine.idx, machine.stagingTX.sigs[machine.idx].value);
      loc := Waiting;
    }

    /** The deferred discard after a message could not be sent. */
    method SendFailed()
      requires loc == Signed || loc == Accepting
      modifies this, machine
      ensures AsParty() == After(SendFails, AsParty()).me
    {
      var ok := machine.DiscardUpdate();
      loc := Idle;
    }

    /** handleUpdateReq up to calling the handler. */
    method HandleUpdateReq(i: nat) returns (ok: bool)
      requires loc == Idle && i < |props| && machine.currentTX.state.Some? && |machine.params.parts| == 2
      modifies this
      ensures AsParty() == After(RecvProposal(i), AsParty()).me
      ensures ok <==> loc.Handling?
    {
      var prop := props[i];
      props := props[..i] + props[i + 1..];
      ok := machine.CheckUpdate(prop.state, prop.actor, prop.sig, if machine.idx == 0 then 1 else 0);
      if ok {
        loc := Handling(prop);
      }
    }

    /** handleUpdateAcc up to sending the accept, with the deferred discard on failure. */
    method HandleUpdateAcc() returns (ok: bool)
      requires loc.Handling? && machine.idx < |machine.params.parts|
      modifies this, machine
      ensures AsParty() == After(AcceptProposal, AsParty()).me
      ensures ok <==> loc == Accepting
    {
      var prop := loc.prop;
      ok := machine.Update(prop.state, prop.actor);
      if !ok {
        loc := Idle;
        return;
      }
      ok := machine.AddSig(if machine.idx == 0 then 1 else 0, prop.sig);
      if !ok {
        var discarded := machine.DiscardUpdate();
        loc := Idle;
        return;
      }
      var sig := machine.Sig();
      loc := Accepting;
    }

    method SendAccept() returns (acc: Accept)
      requires loc == Accepting && machine.stagingTX.state.Some?
      requires machine.idx < |machine.stagingTX.sigs| && machine.stagingTX.sigs[machine.idx].Some?
      modifies this
      ensures forall peer: Party :: After(Event.SendAccept, peer) == Pair(AsParty(), peer.(accs := peer.accs + [acc]))
    {
      acc := Accept(machine.stagingTX.state.value.version, machine.stagingTX.sigs[machine.idx].value);
      loc := Accepted;
    }

    /** handleUpdateRej. */
    method HandleUpdateRej() returns (rej: Reject)
      requires loc.Handling?
      modifies this
      ensures forall peer: Party :: After(RejectProposal, peer) == Pair(AsParty(), peer.(rejs := peer.rejs + [rej]))
    {
      rej := Reject(loc.prop.state.version);
      loc := Idle;
    }

    /** enableNotifyUpdate with the deferred discard on failure. */
    method EnableNotifyUpdate() returns (ok: bool)
      requires machine.stagingTX.state.Some?
      modifies machine
      ensures machine.Model() == EnableOrDiscard(machine.env, old(machine.Model()))
    {
      if machine.stagingTX.state.value.isFinal {
        ok := machine.EnableFinal();
      } else {
        ok := machine.EnableUpdate();
      }
      if !ok {
        var discarded := machine.DiscardUpdate();
      }
    }

    method FinishAccept()
      requires loc == Accepted && machine.stagingTX.state.Some?
      modifies this, machine
      ensures AsParty() == After(Finish, AsParty()).me
    {
      var ok := EnableNotifyUpdate();
      loc := Idle;
    }

    /** updateGeneric after the peer's accept for the staged version was received. */
    method ReceiveAccept(i: nat)
      requires loc == Waiting && i < |accs| && machine.stagingTX.state.Some?
      requires accs[i].version == machine.stagingTX.state.value.version
      modifies this, machine
      ensures AsParty() == After(RecvAccept(i), AsParty()).me
    {
      var acc := accs[i];
      accs := accs[..i] + accs[i + 1..];
      var ok := machine.AddSig(if machine.idx == 0 then 1 else 0, acc.sig);
      if ok {
        ok := EnableNotifyUpdate();
      } else {
        var discarded := machine.DiscardUpdate();
      }
      loc := Idle;
    }

    /** updateGeneric after the peer's rejection of the staged version was received. */
    method ReceiveReject(i: nat)
      requires loc == Waiting && i < |rejs| && machine.stagingTX.state.Some?
      requires rejs[i].version == machine.stagingTX.state.value.version
      modifies this, machine
      ensures AsParty() == After(RecvReject(i), AsParty()).me
    {
      rejs := rejs[..i] + rejs[i + 1..];
      var ok := machine.DiscardUpdate();
      loc := Idle;
    }
  }
}

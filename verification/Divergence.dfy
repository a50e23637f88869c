/** Two honest off-chain machines under an arbitrary scheduler. Every machine operation may happen at
    any time, so timeouts, discards, loss, duplication and reordering of messages are all covered; the
    only bond between the machines is that a signature that verifies was made by its signer. */
module Divergence {
  import opened Base
  import opened Allocations
  import opened States
  import opened Machines

  /** The machines of participants 0 and 1 and everything either of them has ever signed. */
  datatype Duo = Duo(m0: Machine, m1: Machine, signed: set<(nat, State)>) {
    function Get(p: nat): Machine {
      if p == 0 then m0 else m1
    }

    function Set(p: nat, m: Machine): Duo {
      if p == 0 then this.(m0 := m) else this.(m1 := m)
    }
  }

  datatype Event = Event(p: nat, op: Op)

  function Start(params: Params): Duo {
    Duo(NewMachine(params, 0), NewMachine(params, 1), {})
  }

  /** The version of the current state; -1 before there is one. */
  function Version(m: Machine): int {
    if m.current.state.Some? then m.current.state.value.version else -1
  }

  function NewSignature(env: Env, m: Machine, e: Event): set<(nat, State)> {
    if e.op.Sign? && Apply(env, m, e.op).Some? then {(e.p, m.staging.state.value)} else {}
  }

  function After(env: Env, d: Duo, e: Event): Duo {
    var m := d.Get(e.p);
    d.Set(e.p, Step(env, m, e.op)).(signed := d.signed + NewSignature(env, m, e))
  }

  /** Off-chain operations by either participant. On-chain progression is requested with the next version,
      as ProgressBy does; the version counter stays below its wrap-around; signatures are not forged. */
  ghost predicate Honest(env: Env, d: Duo, e: Event) {
    var m := d.Get(e.p);
    && e.p < 2
    && OffChain(e.op)
    && (e.op.Update? ==> Version(m) + 1 < UINT64_SIZE)
    && (e.op.SetProgressing? ==> e.op.state.version == Version(m) + 1)
    && (e.op.AddSig? && Apply(env, m, e.op).Some? ==> (e.op.signer, m.staging.state.value) in d.signed)
  }

  function DuoRun(env: Env, params: Params, events: seq<Event>): Duo {
    if events == [] then Start(params)
    else After(env, DuoRun(env, params, events[..|events| - 1]), events[|events| - 1])
  }

  ghost predicate HonestRun(env: Env, params: Params, events: seq<Event>) {
    events == [] ||
    (HonestRun(env, params, events[..|events| - 1]) &&
     Honest(env, DuoRun(env, params, events[..|events| - 1]), events[|events| - 1]))
  }

  /** A machine next to the record of signatures: whatever it stages is at most one version ahead of it,
      its filled slots are recorded, and its current state is signed by both. */
  ghost predicate Tracked(params: Params, m: Machine, p: nat, signed: set<(nat, State)>) {
    && m.params == params && m.idx == p
    && (m.phase == InitActing ==> m.current == EMPTY_TX)
    && (m.staging == EMPTY_TX || (m.staging.state.Some? && |m.staging.sigs| == |params.parts|))
    && (m.staging.state.Some? ==> 0 <= m.staging.state.value.version <= Version(m) + 1)
    && (IsSigning(m.phase) ==> m.staging.state.Some? && m.staging.state.value.version == Version(m) + 1)
    && (m.staging.state.Some? ==> forall i :: 0 <= i < |m.staging.sigs| && m.staging.sigs[i].Some? ==>
          (i, m.staging.state.value) in signed)
    && (m.current.state.Some? ==> (0, m.current.state.value) in signed && (1, m.current.state.value) in signed)
  }

  ghost predicate NothingAhead(m: Machine, p: nat, signed: set<(nat, State)>) {
    forall x :: x in signed && x.0 == p ==> x.1.version <= Version(m) + 1
  }

  ghost predicate DuoInv(params: Params, d: Duo) {
    && Tracked(params, d.m0, 0, d.signed) && Tracked(params, d.m1, 1, d.signed)
    && NothingAhead(d.m0, 0, d.signed) && NothingAhead(d.m1, 1, d.signed)
  }

  lemma StageTracked(m: Machine, p: nat, signed: set<(nat, State)>, params: Params, to: Phase, s: State)
    requires Tracked(params, m, p, signed) && IsSigning(to) && s.version == Version(m) + 1
    ensures Tracked(params, Stage(m, to, s), p, signed)
  {
  }

  lemma SlotTracked(m: Machine, p: nat, signed: set<(nat, State)>, params: Params, i: Index, sig: Sig)
    requires Tracked(params, m, p, signed) && m.staging.state.Some? && i < |m.staging.sigs|
    requires (i, m.staging.state.value) in signed
    ensures Tracked(params, m.(staging := m.staging.(sigs := m.staging.sigs[i := Some(sig)])), p, signed)
  {
  }

  lemma RelabelTracked(m: Machine, p: nat, signed: set<(nat, State)>, params: Params, to: Phase)
    requires Tracked(params, m, p, signed) && !IsSigning(to) && to != InitActing
    ensures Tracked(params, m.(phase := to), p, signed)
    ensures Tracked(params, m.(phase := to, staging := EMPTY_TX), p, signed)
  {
  }

  predicate FillsStaging(op: Op) {
    op.Init? || op.Update? || op.SetProgressing? || op.Sign? || op.AddSig?
  }

  lemma FillingTracked(env: Env, params: Params, d: Duo, e: Event)
    requires |params.parts| == 2 && DuoInv(params, d) && Honest(env, d, e) && FillsStaging(e.op)
    ensures var n := Step(env, d.Get(e.p), e.op);
            Tracked(params, n, e.p, After(env, d, e).signed) && n.current == d.Get(e.p).current
  {
    var m, signed := d.Get(e.p), After(env, d, e).signed;
    TrackedGrows(params, m, e.p, d.signed, NewSignature(env, m, e));
    var n := Apply(env, m, e.op);
    if n.Some? {
      match e.op
      case Init(alloc, data) => StageTracked(m, e.p, signed, params, InitSigning, n.value.staging.state.value);
      case Update(s, _) => StageTracked(m, e.p, signed, params, Signing, s);
      case SetProgressing(s) => StageTracked(m, e.p, signed, params, Progressing, s);
      case Sign => SlotTracked(m, e.p, signed, params, m.idx, n.value.staging.sigs[m.idx].value);
      case AddSig(i, sig) => SlotTracked(m, e.p, signed, params, i, sig);
    }
  }

  lemma MovingTracked(env: Env, params: Params, m: Machine, p: nat, signed: set<(nat, State)>, op: Op)
    requires |params.parts| == 2 && Tracked(params, m, p, signed) && OffChain(op) && !FillsStaging(op)
    ensures Tracked(params, Step(env, m, op), p, signed) && Version(m) <= Version(Step(env, m, op))
  {
    if op.EnableInit? {
      EnableTracked(m, p, signed, params, InitSigning, Funding);
    } else if op.EnableUpdate? {
      EnableTracked(m, p, signed, params, Signing, Acting);
    } else if op.EnableFinal? {
      EnableTracked(m, p, signed, params, Signing, Final);
    } else if Apply(env, m, op).Some? {
      RelabelTracked(m, p, signed, params, Step(env, m, op).phase);
    }
  }

  /** One operation of the participant that moves. */
  lemma TrackedStep(env: Env, params: Params, d: Duo, e: Event)
    requires |params.parts| == 2 && DuoInv(params, d) && Honest(env, d, e)
    ensures Tracked(params, Step(env, d.Get(e.p), e.op), e.p, After(env, d, e).signed)
    ensures Version(d.Get(e.p)) <= Version(Step(env, d.Get(e.p), e.op))
  {
    if FillsStaging(e.op) {
      FillingTracked(env, params, d, e);
    } else {
      assert NewSignature(env, d.Get(e.p), e) == {};
      MovingTracked(env, params, d.Get(e.p), e.p, d.signed + {}, e.op);
    }
  }

  lemma EnableTracked(m: Machine, p: nat, signed: set<(nat, State)>, params: Params, from: Phase, to: Phase)
    requires |params.parts| == 2 && Tracked(params, m, p, signed)
    requires IsSigning(from) && !IsSigning(to) && to != InitActing
    ensures Enable(m, from, to).Some? ==>
              Tracked(params, Enable(m, from, to).value, p, signed) && Version(m) < Version(Enable(m, from, to).value)
  {
    if Enable(m, from, to).Some? {
      assert m.staging.sigs[0].Some? && m.staging.sigs[1].Some?;
    }
  }

  lemma SigningStaysClose(env: Env, params: Params, d: Duo, e: Event)
    requires |params.parts| == 2 && DuoInv(params, d) && Honest(env, d, e)
    ensures NothingAhead(Step(env, d.Get(e.p), e.op), e.p, After(env, d, e).signed)
    ensures NothingAhead(d.Get(1 - e.p), 1 - e.p, After(env, d, e).signed)
  {
    TrackedStep(env, params, d, e);
    assert NothingAhead(d.Get(e.p), e.p, d.signed) && NothingAhead(d.Get(1 - e.p), 1 - e.p, d.signed);
  }

  lemma TrackedGrows(params: Params, m: Machine, p: nat, signed: set<(nat, State)>, more: set<(nat, State)>)
    requires Tracked(params, m, p, signed)
    ensures Tracked(params, m, p, signed + more)
  {
  }

  lemma {:induction false} DuoInvHolds(env: Env, params: Params, events: seq<Event>)
    requires |params.parts| == 2 && HonestRun(env, params, events)
    ensures DuoInv(params, DuoRun(env, params, events))
  {
    if events != [] {
      var d, e := DuoRun(env, params, events[..|events| - 1]), events[|events| - 1];
      DuoInvHolds(env, params, events[..|events| - 1]);
      TrackedStep(env, params, d, e);
      SigningStaysClose(env, params, d, e);
      TrackedGrows(params, d.Get(1 - e.p), 1 - e.p, d.signed, NewSignature(env, d.Get(e.p), e));
    }
  }

  /** The machines never differ by more than one version, each current state is signed by both, and nothing
      either of them ever signed is more than one version ahead of its own current state. */
  lemma BoundedDivergence(env: Env, params: Params, events: seq<Event>)
    requires |params.parts| == 2 && HonestRun(env, params, events)
    ensures var d := DuoRun(env, params, events);
            && -1 <= Version(d.m0) - Version(d.m1) <= 1
            && (forall p :: p == 0 || p == 1 ==> d.Get(p).current.state.Some? ==>
                  (0, d.Get(p).current.state.value) in d.signed && (1, d.Get(p).current.state.value) in d.signed)
            && (forall x :: x in d.signed && x.0 < 2 ==> x.1.version <= Version(d.Get(x.0)) + 1)
  {
    DuoInvHolds(env, params, events);
    var d := DuoRun(env, params, events);
    if d.m0.current.state.Some? { assert (1, d.m0.current.state.value) in d.signed; }
    if d.m1.current.state.Some? { assert (0, d.m1.current.state.value) in d.signed; }
  }
}

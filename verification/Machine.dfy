/** The channel machine (channel/machine.go, channel/statemachine.go): what each operation
    does to the machine as a value, and what every run keeps. */
module Machines {
  import opened Base
  import opened Allocations
  import opened States

  datatype Phase =
    | InitActing | InitSigning | Funding | Acting | Signing | Final
    | Registering | Registered | Progressing | Progressed | Withdrawing | Withdrawn

  /** The numeric value of a phase. */
  function Rank(p: Phase): nat {
    match p
    case InitActing => 0
    case InitSigning => 1
    case Funding => 2
    case Acting => 3
    case Signing => 4
    case Final => 5
    case Registering => 6
    case Registered => 7
    case Progressing => 8
    case Progressed => 9
    case Withdrawing => 10
    case Withdrawn => 11
  }

  predicate IsSigning(p: Phase) {
    p == InitSigning || p == Signing || p == Progressing
  }

  datatype Machine = Machine(
    phase: Phase,
    idx: Index,
    params: Params,
    staging: Transaction,
    current: Transaction,
    prev: seq<Transaction>)

  function NewMachine(params: Params, idx: Index): Machine {
    Machine(InitActing, idx, params, EMPTY_TX, EMPTY_TX, [])
  }

  datatype Op =
    | Init(alloc: Allocation, data: bytes)
    | Update(state: State, actor: Index)
    | ForceUpdate(state: State)
    | Sign
    | AddSig(signer: Index, sig: Sig)
    | DiscardUpdate
    | EnableInit
    | EnableUpdate
    | EnableFinal
    | SetFunded
    | SetRegistering
    | SetRegistered
    | SetProgressing(state: State)
    | SetProgressed(state: State)
    | SetWithdrawing
    | SetWithdrawn

  function NewTx(m: Machine, s: State): Transaction {
    Transaction(Some(s), seq(|m.params.parts|, i => None))
  }

  function Stage(m: Machine, p: Phase, s: State): Machine {
    m.(phase := p, staging := NewTx(m, s))
  }

  /** Pushes the current transaction to the history, promotes tx and clears the staging transaction. */
  function Promote(m: Machine, p: Phase, tx: Transaction): Machine {
    m.(phase := p, prev := m.prev + [m.current], current := tx, staging := EMPTY_TX)
  }

  predicate FullySigned(tx: Transaction) {
    forall i :: 0 <= i < |tx.sigs| ==> tx.sigs[i].Some?
  }

  function Enable(m: Machine, from: Phase, to: Phase): Option<Machine> {
    if m.phase == from && m.staging.state.Some? && (to == Final) == m.staging.state.value.isFinal && FullySigned(m.staging)
    then Some(Promote(m, to, m.staging))
    else None
  }

  function Advance(m: Machine, from: set<Phase>, to: Phase): Option<Machine> {
    if m.phase in from then Some(m.(phase := to)) else None
  }

  /** The machine after an operation; None where the source returns an error or, for a missing
      state or slot, dereferences nil. Either way the machine is left as it was. */
  function Apply(env: Env, m: Machine, op: Op): (r: Option<Machine>)
  {
    match op
    case Init(alloc, data) =>
      var s := NewState(m.params, alloc, data);
      if m.phase == InitActing && s.Some? && AppAcceptsInit(env, m.params, s.value)
      then Some(Stage(m, InitSigning, s.value)) else None
    case Update(s, actor) =>
      if m.phase == Acting && m.current.state.Some? && ValidAppTransition(env, m.params, m.current.state.value, s, actor)
      then Some(Stage(m, Signing, s)) else None
    case ForceUpdate(s) => Some(Stage(m, Signing, s))
    case Sign =>
      if IsSigning(m.phase) && m.staging.state.Some? && m.idx < |m.staging.sigs| && m.idx < |m.params.parts| then
        if m.staging.sigs[m.idx].Some? then Some(m)
        else
          var sig := env.sign(m.params.parts[m.idx], m.staging.state.value);
          Some(m.(staging := m.staging.(sigs := m.staging.sigs[m.idx := Some(sig)])))
      else None
    case AddSig(i, sig) =>
      if && IsSigning(m.phase) && m.staging.state.Some? && i < |m.staging.sigs| && i < |m.params.parts|
         && m.staging.sigs[i].None? && env.verify(m.params.parts[i], m.staging.state.value, sig)
      then Some(m.(staging := m.staging.(sigs := m.staging.sigs[i := Some(sig)]))) else None
    case DiscardUpdate => if m.phase == Signing then Some(m.(phase := Acting, staging := EMPTY_TX)) else None
    case EnableInit => Enable(m, InitSigning, Funding)
    case EnableUpdate => Enable(m, Signing, Acting)
    case EnableFinal => Enable(m, Signing, Final)
    case SetFunded => Advance(m, {Funding}, Acting)
    case SetRegistering => if Rank(m.phase) < Rank(Funding) then None else Some(m.(phase := Registering))
    case SetRegistered => if Rank(m.phase) < Rank(Funding) then None else Some(m.(phase := Registered))
    case SetProgressing(s) => if m.phase in {Registered, Progressed} then Some(Stage(m, Progressing, s)) else None
    case SetProgressed(s) => Some(Promote(m, Progressed, NewTx(m, s)))
    case SetWithdrawing => Advance(m, {Final, Registered, Progressed, Withdrawing}, Withdrawing)
    case SetWithdrawn => Advance(m, {Withdrawing}, Withdrawn)
  }

  function Step(env: Env, m: Machine, op: Op): Machine {
    match Apply(env, m, op)
    case None => m
    case Some(n) => n
  }

  function Run(env: Env, m: Machine, ops: seq<Op>): Machine {
    if ops == [] then m else Step(env, Run(env, m, ops[..|ops| - 1]), ops[|ops| - 1])
  }

  lemma {:induction false} RunKeepsIdentity(env: Env, m: Machine, ops: seq<Op>)
    ensures Run(env, m, ops).params == m.params && Run(env, m, ops).idx == m.idx
  {
    if ops != [] {
      RunKeepsIdentity(env, m, ops[..|ops| - 1]);
    }
  }

  // ----- signatures

  /** One slot per participant, and every filled slot verifies for its participant on the state. */
  predicate ValidlySigned(env: Env, params: Params, tx: Transaction) {
    && tx.state.Some?
    && |tx.sigs| == |params.parts|
    && forall i :: 0 <= i < |tx.sigs| && tx.sigs[i].Some? ==>
         env.verify(params.parts[i], tx.state.value, tx.sigs[i].value)
  }

  ghost predicate SignatureInv(env: Env, m: Machine, progressed: set<State>) {
    && (IsSigning(m.phase) ==> m.staging.state.Some?)
    && (m.staging == EMPTY_TX || ValidlySigned(env, m.params, m.staging))
    && (|| m.current == EMPTY_TX
        || (ValidlySigned(env, m.params, m.current) && FullySigned(m.current))
        || (m.current.state.Some? && m.current.state.value in progressed))
  }

  ghost function ProgressedStates(ops: seq<Op>): set<State> {
    set i | 0 <= i < |ops| && ops[i].SetProgressed? :: ops[i].state
  }

  lemma SignatureStep(env: Env, m: Machine, op: Op, progressed: set<State>)
    requires Lawful(env) && SignatureInv(env, m, progressed)
    requires op.SetProgressed? ==> op.state in progressed
    ensures SignatureInv(env, Step(env, m, op), progressed)
  {
    var n := Step(env, m, op);
    match op
    case Sign =>
      if Apply(env, m, op).Some? && m.staging.sigs[m.idx].None? {
        assert env.verify(m.params.parts[m.idx], m.staging.state.value, n.staging.sigs[m.idx].value);
      }
    case _ =>
  }

  /** Every run, forced updates and on-chain progression included. */
  lemma {:induction false} SignaturesValidOnEveryRun(env: Env, params: Params, idx: Index, ops: seq<Op>)
    requires Lawful(env)
    ensures SignatureInv(env, Run(env, NewMachine(params, idx), ops), ProgressedStates(ops))
  {
    SignaturesValidUpTo(env, params, idx, ops, ProgressedStates(ops));
  }

  lemma {:induction false} SignaturesValidUpTo(env: Env, params: Params, idx: Index, ops: seq<Op>, progressed: set<State>)
    requires Lawful(env) && ProgressedStates(ops) <= progressed
    ensures SignatureInv(env, Run(env, NewMachine(params, idx), ops), progressed)
  {
    if ops != [] {
      var init, last := ops[..|ops| - 1], ops[|ops| - 1];
      forall s | s in ProgressedStates(init)
        ensures s in progressed
      {
        var i :| 0 <= i < |init| && init[i].SetProgressed? && init[i].state == s;
        assert ops[i] == init[i];
      }
      SignaturesValidUpTo(env, params, idx, init, progressed);
      if last.SetProgressed? {
        assert last.state in ProgressedStates(ops);
      }
      SignatureStep(env, Run(env, NewMachine(params, idx), init), last, progressed);
    }
  }

  // ----- history

  predicate OffChain(op: Op) {
    !op.ForceUpdate? && !op.SetProgressed?
  }

  function History(m: Machine): (h: seq<Transaction>)
    ensures |h| > 0
  {
    m.prev + [m.current]
  }

  predicate HistoryEntry(params: Params, tx: Transaction, version: nat, total: seq<Bal>) {
    && tx.state.Some?
    && tx.state.value.id == params.id
    && tx.state.value.version == version % UINT64_SIZE
    && ValidAlloc(tx.state.value.alloc)
    && SumAlloc(tx.state.value.alloc) == total
  }

  /** An empty entry, then versions 0, 1, 2, ... of one channel with constant totals, only the last possibly final. */
  ghost predicate HistoryInv(m: Machine) {
    var h := History(m);
    && h[0] == EMPTY_TX
    && (|h| > 1 ==> h[1].state.Some?)
    && (forall i :: 1 <= i < |h| ==> HistoryEntry(m.params, h[i], i - 1, SumAlloc(h[1].state.value.alloc)))
    && (forall i :: 1 <= i < |h| - 1 ==> !h[i].state.value.isFinal)
  }

  /** What each off-chain phase says about the current and the staged state. */
  ghost predicate PhaseInv(m: Machine) {
    && (Rank(m.phase) < Rank(Funding) <==> m.current == EMPTY_TX)
    && (m.phase == InitSigning ==>
          m.staging.state.Some? && HistoryEntry(m.params, m.staging, 0, SumAlloc(m.staging.state.value.alloc)) &&
          !m.staging.state.value.isFinal)
    && (m.phase == Signing ==>
          m.current.state.Some? && m.staging.state.Some? &&
          ValidTransition(m.params, m.current.state.value, m.staging.state.value))
    && (m.phase in {Funding, Acting} ==> m.current.state.Some? && !m.current.state.value.isFinal)
    && (m.phase == Final ==> m.current.state.Some? && m.current.state.value.isFinal)
  }

  lemma PromoteKeepsHistory(m: Machine, p: Phase)
    requires HistoryInv(m) && PhaseInv(m) && m.phase in {InitSigning, Signing}
    ensures HistoryInv(Promote(m, p, m.staging))
  {
    var n := Promote(m, p, m.staging);
    var h, g := History(m), History(n);
    assert g == h + [m.staging] && h[|h| - 1] == m.current;
    if m.phase == InitSigning {
      assert |h| == 1;
    } else {
      assert |h| > 1 && HistoryEntry(m.params, h[|h| - 1], |h| - 2, SumAlloc(h[1].state.value.alloc));
      assert m.staging.state.value.version == (|h| - 1) % UINT64_SIZE;
    }
    forall i | 1 <= i < |g|
      ensures HistoryEntry(m.params, g[i], i - 1, SumAlloc(g[1].state.value.alloc))
    {
      assert i < |h| ==> g[i] == h[i];
    }
  }

  /** Only the enabling operations touch the history. */
  lemma KeepsTransactions(env: Env, m: Machine, op: Op)
    requires OffChain(op)
    ensures var n := Step(env, m, op);
            n.params == m.params &&
            ((n.prev == m.prev && n.current == m.current) ||
             (m.phase in {InitSigning, Signing} && m.staging.state.Some? && n == Promote(m, n.phase, m.staging)))
  {
  }

  lemma PhaseStep(env: Env, m: Machine, op: Op)
    requires OffChain(op) && PhaseInv(m)
    ensures PhaseInv(Step(env, m, op))
    ensures Rank(m.phase) >= Rank(Registering) ==> Rank(Step(env, m, op).phase) >= Rank(Registering)
  {
  }

  lemma HistoryStep(env: Env, m: Machine, op: Op)
    requires OffChain(op) && HistoryInv(m) && PhaseInv(m)
    ensures HistoryInv(Step(env, m, op)) && PhaseInv(Step(env, m, op))
    ensures Rank(m.phase) >= Rank(Registering) ==>
              Rank(Step(env, m, op).phase) >= Rank(Registering) && History(Step(env, m, op)) == History(m)
  {
    var n := Step(env, m, op);
    PhaseStep(env, m, op);
    KeepsTransactions(env, m, op);
    if n.prev == m.prev && n.current == m.current {
      assert History(n) == History(m);
    } else {
      PromoteKeepsHistory(m, n.phase);
    }
  }

  /** Every run without forced updates and without on-chain progression. */
  lemma {:induction false} HistoryOnEveryRun(env: Env, params: Params, idx: Index, ops: seq<Op>)
    requires forall i :: 0 <= i < |ops| ==> OffChain(ops[i])
    ensures HistoryInv(Run(env, NewMachine(params, idx), ops))
    ensures PhaseInv(Run(env, NewMachine(params, idx), ops))
  {
    if ops != [] {
      var init := ops[..|ops| - 1];
      HistoryOnEveryRun(env, params, idx, init);
      HistoryStep(env, Run(env, NewMachine(params, idx), init), ops[|ops| - 1]);
    }
  }

  lemma {:induction false} RunAppend(env: Env, m: Machine, a: seq<Op>, b: seq<Op>)
    ensures Run(env, m, a + b) == Run(env, Run(env, m, a), b)
  {
    if b == [] {
      assert a + b == a;
    } else {
      RunAppend(env, m, a, b[..|b| - 1]);
      assert (a + b)[..|a + b| - 1] == a + b[..|b| - 1];
    }
  }

  lemma {:induction false} FrozenFrom(env: Env, m: Machine, ops: seq<Op>)
    requires HistoryInv(m) && PhaseInv(m) && Rank(m.phase) >= Rank(Registering)
    requires forall i :: 0 <= i < |ops| ==> OffChain(ops[i])
    ensures var n := Run(env, m, ops);
            HistoryInv(n) && PhaseInv(n) && History(n) == History(m) && Rank(n.phase) >= Rank(Registering)
  {
    if ops != [] {
      FrozenFrom(env, m, ops[..|ops| - 1]);
      HistoryStep(env, Run(env, m, ops[..|ops| - 1]), ops[|ops| - 1]);
    }
  }

  /** From phase Registering on, no such run changes the current transaction or the history. */
  lemma FrozenOnceRegistering(env: Env, params: Params, idx: Index, before: seq<Op>, after: seq<Op>)
    requires forall i :: 0 <= i < |before| ==> OffChain(before[i])
    requires forall i :: 0 <= i < |after| ==> OffChain(after[i])
    requires Rank(Run(env, NewMachine(params, idx), before).phase) >= Rank(Registering)
    ensures var m, n := Run(env, NewMachine(params, idx), before), Run(env, NewMachine(params, idx), before + after);
            n.prev == m.prev && n.current == m.current && Rank(n.phase) >= Rank(Registering)
  {
    var m := Run(env, NewMachine(params, idx), before);
    HistoryOnEveryRun(env, params, idx, before);
    RunAppend(env, NewMachine(params, idx), before, after);
    FrozenFrom(env, m, after);
    var n := Run(env, m, after);
    assert n.current == History(n)[|History(n)| - 1] == m.current;
    assert n.prev == History(n)[..|History(n)| - 1] == m.prev;
  }
}

/** Channel parameters, states and transactions (channel/params.go, channel/state.go, channel/transaction.go). */
module States {
  import opened Base
  import opened Allocations

  const UINT64_SIZE: nat := 0x1_0000_0000_0000_0000

  type Address = bytes
  type Sig = bytes

  datatype App = NoApp | AppDef(def: Address)

  datatype Params = Params(
    id: ID,
    challengeDuration: nat,
    parts: seq<Address>,
    app: App,
    nonce: nat,
    ledger: bool,
    virtual: bool)

  /** Application data is kept as the bytes it encodes to; NoData encodes to nothing. */
  datatype State = State(id: ID, version: nat, app: App, alloc: Allocation, data: bytes, isFinal: bool)

  /** A state with one signature slot per participant. The zero value has neither. */
  datatype Transaction = Transaction(state: Option<State>, sigs: seq<Option<Sig>>)

  /** A state with its parameters and signatures, as the adjudicator and the proposals carry it. */
  datatype SignedState = SignedState(params: Params, state: State, sigs: seq<Option<Sig>>)

  const EMPTY_TX := Transaction(None, [])

  /** The backend and the application are foreign code: signing, verifying and the two application checks. */
  datatype Env = Env(
    sign: (Address, State) -> Sig,
    verify: (Address, State, Sig) -> bool,
    validInit: (Params, State) -> bool,
    validTransition: (Params, State, State, Index) -> bool)

  /** The one law of the signature scheme: an account's own signature verifies. */
  ghost predicate Lawful(env: Env) {
    forall a, s :: env.verify(a, s, env.sign(a, s))
  }

  /** StateApp.ValidInit; NoApp asks for NoData. */
  predicate AppAcceptsInit(env: Env, params: Params, s: State) {
    if params.app.NoApp? then s.data == [] else env.validInit(params, s)
  }

  /** StateApp.ValidTransition; NoApp allows everything. */
  predicate AppAccepts(env: Env, params: Params, from: State, to: State, actor: Index) {
    params.app.NoApp? || env.validTransition(params, from, to, actor)
  }

  /** newState: None unless the allocation fits the participants and is valid. */
  function NewState(params: Params, alloc: Allocation, data: bytes): (s: Option<State>)
    ensures s.Some? ==> ValidAlloc(s.value.alloc) && NumParts(s.value.alloc) == |params.parts|
  {
    if (forall i :: 0 <= i < |alloc.balances| ==> |alloc.balances[i]| == |params.parts|) && ValidAlloc(alloc)
    then Some(State(params.id, 0, params.app, alloc, data, false))
    else None
  }

  /** machine.validTransition; the version counter is a uint64. */
  predicate ValidTransition(params: Params, from: State, to: State) {
    && to.id == params.id
    && to.app == params.app
    && !from.isFinal
    && to.version == (from.version + 1) % UINT64_SIZE
    && ValidAlloc(to.alloc)
    && SumAlloc(from.alloc) == SumAlloc(to.alloc)
  }

  /** StateMachine.validTransition. */
  predicate ValidAppTransition(env: Env, params: Params, from: State, to: State, actor: Index) {
    && actor < |params.parts|
    && ValidTransition(params, from, to)
    && AppAccepts(env, params, from, to, actor)
  }
}

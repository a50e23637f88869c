/** The two-party update protocol (client/update.go): proposing, accepting and rejecting updates over an
    asynchronous network. A staged update is dropped only after the peer's rejection or when a message was
    not sent; messages may be reordered and delayed but are neither lost nor duplicated. */
module Agreement {
  import opened Base
  import opened Allocations
  import opened States
  import opened Machines

  datatype Proposal = Proposal(state: State, actor: Index, sig: Sig)
  datatype Accept = Accept(version: nat, sig: Sig)
  datatype Reject = Reject(version: nat)

  /** Where a party is while it holds its machine lock; Idle means the lock is free. */
  datatype Loc =
    | Idle
    | Signed               // updateGeneric: staged and signed, proposal not sent yet
    | Waiting              // updateGeneric: proposal sent, waiting for the response
    | Handling(prop: Proposal) // handleUpdateReq: checked, the handler has not decided yet
    | Accepting            // handleUpdateAcc: staged and fully signed, accept not sent yet
    | Accepted             // handleUpdateAcc: accept sent, update not enabled yet

  /** A machine, its controller's location and the messages in flight to it. */
  datatype Party = Party(m: Machine, loc: Loc, props: seq<Proposal>, accs: seq<Accept>, rejs: seq<Reject>)

  datatype Pair = Pair(me: Party, peer: Party)

  datatype Event =
    | Propose(state: State)
    | SendProposal
    | SendFails
    | RecvProposal(i: nat)
    | IgnoreProposal
    | RejectProposal
    | AcceptProposal
    | SendAccept
    | Finish
    | RecvAccept(i: nat)
    | RecvReject(i: nat)

  function Discard(env: Env, m: Machine): Machine {
    Step(env, m, DiscardUpdate)
  }

  /** enableNotifyUpdate, with the deferred discard on failure. */
  function EnableOrDiscard(env: Env, m: Machine): Machine {
    if m.staging.state.None? then m
    else
      match Apply(env, m, if m.staging.state.value.isFinal then EnableFinal else EnableUpdate)
      case Some(n) => n
      case None => Discard(env, m)
  }

  function Remove<T>(s: seq<T>, i: nat): seq<T>
    requires i < |s|
  {
    s[..i] + s[i + 1..]
  }

  /** The index of the other participant of a two-party channel. */
  function PeerIdx(m: Machine): Index {
    if m.idx == 0 then 1 else 0
  }

  /** The own signature in the staging transaction. */
  function OwnSig(m: Machine): Sig {
    if m.idx < |m.staging.sigs| && m.staging.sigs[m.idx].Some? then m.staging.sigs[m.idx].value else []
  }

  /** handleUpdateAcc up to sending: stage, add the proposer's signature, sign. */
  function StageAccept(env: Env, me: Party, prop: Proposal): Party {
    match Apply(env, me.m, Update(prop.state, prop.actor))
    case None => me.(loc := Idle)
    case Some(staged) =>
      match Apply(env, staged, AddSig(PeerIdx(me.m), prop.sig))
      case None => me.(m := Discard(env, staged), loc := Idle)
      case Some(half) => me.(m := Step(env, half, Sign), loc := Accepting)
  }

  /** updateGeneric after an accept arrived: add the peer's signature and enable, or discard. */
  function TakeAccept(env: Env, me: Party, acc: Accept): Party {
    match Apply(env, me.m, AddSig(PeerIdx(me.m), acc.sig))
    case None => me.(m := Discard(env, me.m), loc := Idle)
    case Some(full) => me.(m := EnableOrDiscard(env, full), loc := Idle)
  }

  function CheckUpdate(env: Env, m: Machine, prop: Proposal, signer: nat): bool {
    && m.current.state.Some? && signer < |m.params.parts|
    && ValidAppTransition(env, m.params, m.current.state.value, prop.state, prop.actor)
    && env.verify(m.params.parts[signer], prop.state, prop.sig)
  }

  /** One step of me; an event that is not enabled changes nothing. */
  function Act(env: Env, s: Pair, e: Event): Pair {
    var me, peer := s.me, s.peer;
    match e
    case Propose(state) =>
      if me.loc != Idle then s
      else (match Apply(env, me.m, Update(state, me.m.idx))
            case None => s
            case Some(staged) => s.(me := me.(m := Step(env, staged, Sign), loc := Signed)))
    case SendProposal =>
      if me.loc != Signed || me.m.staging.state.None? then s
      else Pair(me.(loc := Waiting), peer.(props := peer.props + [Proposal(me.m.staging.state.value, me.m.idx, OwnSig(me.m))]))
    case SendFails =>
      if me.loc == Signed || me.loc == Accepting then s.(me := me.(m := Discard(env, me.m), loc := Idle))
      else if me.loc.Handling? then s.(me := me.(loc := Idle))
      else s
    case RecvProposal(i) =>
      if me.loc != Idle || i >= |me.props| then s
      else
        var rest := me.(props := Remove(me.props, i));
        if CheckUpdate(env, me.m, me.props[i], PeerIdx(me.m)) then s.(me := rest.(loc := Handling(me.props[i])))
        else s.(me := rest)
    case IgnoreProposal => if me.loc.Handling? then s.(me := me.(loc := Idle)) else s
    case RejectProposal =>
      if !me.loc.Handling? then s
      else Pair(me.(loc := Idle), peer.(rejs := peer.rejs + [Reject(me.loc.prop.state.version)]))
    case AcceptProposal => if me.loc.Handling? then s.(me := StageAccept(env, me, me.loc.prop)) else s
    case SendAccept =>
      if me.loc != Accepting || me.m.staging.state.None? then s
      else Pair(me.(loc := Accepted), peer.(accs := peer.accs + [Accept(me.m.staging.state.value.version, OwnSig(me.m))]))
    case Finish => if me.loc == Accepted then s.(me := me.(m := EnableOrDiscard(env, me.m), loc := Idle)) else s
    case RecvAccept(i) =>
      if me.loc != Waiting || i >= |me.accs| || me.m.staging.state.None? || me.accs[i].version != me.m.staging.state.value.version then s
      else s.(me := TakeAccept(env, me.(accs := Remove(me.accs, i)), me.accs[i]))
    case RecvReject(i) =>
      if me.loc != Waiting || i >= |me.rejs| || me.m.staging.state.None? || me.rejs[i].version != me.m.staging.state.value.version then s
      else s.(me := me.(rejs := Remove(me.rejs, i), m := Discard(env, me.m), loc := Idle))
  }

  // ----- invariant

  /** A machine between two updates. */
  ghost predicate Resting(m: Machine) {
    && m.current.state.Some?
    && m.staging == EMPTY_TX
    && m.phase == (if m.current.state.value.isFinal then Final else Acting)
  }

  /** A machine with a valid update staged, signed by itself, and by the peer exactly if full. */
  ghost predicate Staged(env: Env, m: Machine, full: bool) {
    && m.phase == Signing && m.current.state.Some? && m.staging.state.Some?
    && m.idx < 2 && |m.staging.sigs| == 2 && |m.params.parts| == 2
    && ValidTransition(m.params, m.current.state.value, m.staging.state.value)
    && m.staging.sigs[m.idx] == Some(env.sign(m.params.parts[m.idx], m.staging.state.value))
    && m.staging.sigs[1 - m.idx].Some? == full
  }

  /** A machine with an update of its own staged. */
  ghost predicate Proposed(env: Env, m: Machine) {
    Staged(env, m, false) && AppAccepts(env, m.params, m.current.state.value, m.staging.state.value, m.idx)
  }

  ghost predicate PartyInv(env: Env, params: Params, p: nat, x: Party)
    requires p < 2
  {
    && x.m.params == params && x.m.idx == p && |params.parts| == 2 && x.m.current.state.Some?
    && match x.loc
       case Idle => Resting(x.m)
       case Handling(prop) => Resting(x.m) && CheckUpdate(env, x.m, prop, 1 - p)
       case Signed => Proposed(env, x.m)
       case Waiting => Proposed(env, x.m)
       case Accepting => Staged(env, x.m, true)
       case Accepted => Staged(env, x.m, true)
  }

  /** What is under way of the round that x proposed to y. */
  function Pending(x: Party, y: Party): nat {
    |y.props| + |x.accs| + |x.rejs| + if y.loc.Handling? || y.loc.Accepting? then 1 else 0
  }

  function Current(x: Party): Option<State> {
    x.m.current.state
  }

  /** At most one thing is under way per round, and only while its proposer waits for it. */
  ghost predicate RoundInv(env: Env, params: Params, q: nat, x: Party, y: Party)
    requires q < 2 && |params.parts| == 2
  {
    && Pending(x, y) <= 1
    && (Pending(x, y) == 1 ==> x.loc.Waiting?)
    && (x.m.staging.state.Some? ==>
          var s := x.m.staging.state.value;
          && (|y.props| == 1 ==> y.props[0] == Proposal(s, x.m.idx, env.sign(params.parts[1 - q], s)))
          && (y.loc.Handling? ==> y.loc.prop == Proposal(s, x.m.idx, env.sign(params.parts[1 - q], s)))
          && (y.loc.Accepting? ==> y.m.staging.state == Some(s))
          && (|x.rejs| == 1 ==> x.rejs[0] == Reject(s.version))
          && (|x.accs| == 1 ==> x.accs[0] == Accept(s.version, env.sign(params.parts[q], s)))
          && (|x.accs| == 1 ==> (if y.loc.Accepted? then y.m.staging.state else Current(y)) == Some(s)))
    && (y.loc.Accepted? && |x.accs| == 0 ==> y.m.staging.state == Current(x))
  }

  /** x has enabled an update that y still has staged. */
  ghost predicate RunsAhead(x: Party, y: Party) {
    (y.loc.Accepted? && |x.accs| == 0) || (y.loc.Waiting? && |y.accs| == 1 && !x.loc.Accepted?)
  }

  ghost predicate PairInv(env: Env, params: Params, p: nat, s: Pair)
    requires p < 2
  {
    && PartyInv(env, params, p, s.me) && PartyInv(env, params, 1 - p, s.peer)
    && RoundInv(env, params, 1 - p, s.me, s.peer) && RoundInv(env, params, p, s.peer, s.me)
    && !(s.me.loc.Accepted? && s.peer.loc.Accepted?)
    && |s.me.accs| + |s.peer.accs| <= 1
    && (!RunsAhead(s.me, s.peer) && !RunsAhead(s.peer, s.me) ==> Current(s.me) == Current(s.peer))
  }

  function Swap(s: Pair): Pair {
    Pair(s.peer, s.me)
  }

  lemma SwapKeepsInv(env: Env, params: Params, p: nat, s: Pair)
    requires p < 2 && PairInv(env, params, p, s)
    ensures PairInv(env, params, 1 - p, Swap(s))
  {
  }

  // ----- one lemma per kind of step

  lemma ProposeKeepsInv(env: Env, params: Params, p: nat, s: Pair, state: State)
    requires p < 2 && Lawful(env) && PairInv(env, params, p, s)
    ensures PairInv(env, params, p, Act(env, s, Propose(state)))
  {
    var staged := Apply(env, s.me.m, Update(state, p));
    if s.me.loc.Idle? && staged.Some? {
      assert staged.value == Stage(s.me.m, Signing, state);
      assert Staged(env, Step(env, staged.value, Sign), false);
    }
  }

  lemma SendProposalKeepsInv(env: Env, params: Params, p: nat, s: Pair)
    requires p < 2 && PairInv(env, params, p, s)
    ensures PairInv(env, params, p, Act(env, s, SendProposal))
  {
  }

  lemma SendAcceptKeepsInv(env: Env, params: Params, p: nat, s: Pair)
    requires p < 2 && PairInv(env, params, p, s)
    ensures PairInv(env, params, p, Act(env, s, SendAccept))
  {
  }

  lemma RejectKeepsInv(env: Env, params: Params, p: nat, s: Pair)
    requires p < 2 && PairInv(env, params, p, s)
    ensures PairInv(env, params, p, Act(env, s, RejectProposal))
  {
  }

  /** Discarding a staged update leaves the machine where it was before. */
  lemma DiscardStaged(env: Env, m: Machine, full: bool)
    requires Staged(env, m, full)
    ensures Discard(env, m) == m.(phase := Acting, staging := EMPTY_TX) && Resting(Discard(env, m))
  {
  }

  /** A fully signed update is enabled. */
  lemma EnableFull(env: Env, m: Machine)
    requires Staged(env, m, true)
    ensures var to := if m.staging.state.value.isFinal then Final else Acting;
            EnableOrDiscard(env, m) == Promote(m, to, m.staging) && Resting(EnableOrDiscard(env, m))
  {
    var to := if m.staging.state.value.isFinal then Final else Acting;
    assert Enable(m, Signing, to) == Some(Promote(m, to, m.staging));
  }

  lemma SendFailsKeepsInv(env: Env, params: Params, p: nat, s: Pair)
    requires p < 2 && PairInv(env, params, p, s)
    ensures PairInv(env, params, p, Act(env, s, SendFails))
  {
    if s.me.loc == Signed || s.me.loc == Accepting {
      DiscardStaged(env, s.me.m, s.me.loc == Accepting);
    }
  }

  lemma IgnoreKeepsInv(env: Env, params: Params, p: nat, s: Pair)
    requires p < 2 && PairInv(env, params, p, s)
    ensures PairInv(env, params, p, Act(env, s, IgnoreProposal))
  {
  }

  lemma RecvRejectKeepsInv(env: Env, params: Params, p: nat, s: Pair, i: nat)
    requires p < 2 && PairInv(env, params, p, s)
    ensures PairInv(env, params, p, Act(env, s, RecvReject(i)))
  {
    if s.me.loc == Waiting {
      DiscardStaged(env, s.me.m, false);
    }
  }

  lemma RecvProposalKeepsInv(env: Env, params: Params, p: nat, s: Pair, i: nat)
    requires p < 2 && PairInv(env, params, p, s)
    ensures PairInv(env, params, p, Act(env, s, RecvProposal(i)))
  {
  }

  /** Neither Update nor AddSig fails after CheckUpdate. */
  lemma AcceptNeverFails(env: Env, params: Params, p: nat, me: Party)
    requires p < 2 && Lawful(env) && PartyInv(env, params, p, me) && me.loc.Handling?
    ensures var r := StageAccept(env, me, me.loc.prop);
            && r == me.(m := r.m, loc := Accepting) && r.m == me.m.(phase := Signing, staging := r.m.staging)
            && Staged(env, r.m, true) && r.m.staging.state == Some(me.loc.prop.state)
  {
    var m, prop := me.m, me.loc.prop;
    var staged := Stage(m, Signing, prop.state);
    assert Apply(env, m, Update(prop.state, prop.actor)) == Some(staged);
    var half := staged.(staging := staged.staging.(sigs := staged.staging.sigs[1 - p := Some(prop.sig)]));
    assert Apply(env, staged, AddSig(1 - p, prop.sig)) == Some(half);
  }

  lemma AcceptKeepsInv(env: Env, params: Params, p: nat, s: Pair)
    requires p < 2 && Lawful(env) && PairInv(env, params, p, s)
    ensures PairInv(env, params, p, Act(env, s, AcceptProposal))
  {
    if s.me.loc.Handling? {
      AcceptNeverFails(env, params, p, s.me);
    }
  }

  lemma FinishKeepsInv(env: Env, params: Params, p: nat, s: Pair)
    requires p < 2 && PairInv(env, params, p, s)
    ensures PairInv(env, params, p, Act(env, s, Finish))
  {
    if s.me.loc == Accepted {
      EnableFull(env, s.me.m);
    }
  }

  /** The accept that arrives always completes the update that waits for it. */
  lemma TakeAcceptEnables(env: Env, params: Params, p: nat, me: Party, acc: Accept)
    requires p < 2 && Lawful(env) && PartyInv(env, params, p, me) && me.loc.Waiting?
    requires acc.sig == env.sign(params.parts[1 - p], me.m.staging.state.value)
    ensures var r, state := TakeAccept(env, me, acc), me.m.staging.state;
            && Resting(r.m) && Current(r) == state
            && r == me.(m := r.m, loc := Idle) && r.m.params == params && r.m.idx == p
  {
    assert env.verify(params.parts[1 - p], me.m.staging.state.value, acc.sig);
    var full := me.m.(staging := me.m.staging.(sigs := me.m.staging.sigs[1 - p := Some(acc.sig)]));
    assert Apply(env, me.m, AddSig(1 - p, acc.sig)) == Some(full);
    EnableFull(env, full);
  }

  lemma RecvAcceptKeepsInv(env: Env, params: Params, p: nat, s: Pair, i: nat)
    requires p < 2 && Lawful(env) && PairInv(env, params, p, s)
    ensures PairInv(env, params, p, Act(env, s, RecvAccept(i)))
  {
    if s.me.loc == Waiting && i < |s.me.accs| {
      TakeAcceptEnables(env, params, p, s.me.(accs := Remove(s.me.accs, i)), s.me.accs[i]);
    }
  }

  lemma ActKeepsInv(env: Env, params: Params, p: nat, s: Pair, e: Event)
    requires p < 2 && Lawful(env) && PairInv(env, params, p, s)
    ensures PairInv(env, params, p, Act(env, s, e))
  {
    match e
    case Propose(state) => ProposeKeepsInv(env, params, p, s, state);
    case SendProposal => SendProposalKeepsInv(env, params, p, s);
    case SendAccept => SendAcceptKeepsInv(env, params, p, s);
    case RejectProposal => RejectKeepsInv(env, params, p, s);
    case SendFails => SendFailsKeepsInv(env, params, p, s);
    case IgnoreProposal => IgnoreKeepsInv(env, params, p, s);
    case RecvReject(i) => RecvRejectKeepsInv(env, params, p, s, i);
    case RecvProposal(i) => RecvProposalKeepsInv(env, params, p, s, i);
    case AcceptProposal => AcceptKeepsInv(env, params, p, s);
    case Finish => FinishKeepsInv(env, params, p, s);
    case RecvAccept(i) => RecvAcceptKeepsInv(env, params, p, s, i);
  }

  // ----- runs

  /** Both parties; side p is the one with index p. */
  datatype Move = Move(p: nat, event: Event)

  function System(env: Env, start: Pair, moves: seq<Move>): Pair {
    if moves == [] then start
    else
      var s, last := System(env, start, moves[..|moves| - 1]), moves[|moves| - 1];
      if last.p == 0 then Act(env, s, last.event) else Swap(Act(env, Swap(s), last.event))
  }

  /** A resting machine with nothing in flight to it. */
  ghost predicate AtRest(params: Params, p: nat, x: Party) {
    x.m.params == params && x.m.idx == p && Resting(x.m) && x == Party(x.m, Idle, [], [], [])
  }

  /** Both parties at rest with the same current state. */
  ghost predicate Initial(params: Params, s: Pair) {
    |params.parts| == 2 && AtRest(params, 0, s.me) && AtRest(params, 1, s.peer) && Current(s.me) == Current(s.peer)
  }

  lemma {:induction false} SystemInv(env: Env, params: Params, start: Pair, moves: seq<Move>)
    requires Lawful(env) && Initial(params, start)
    ensures PairInv(env, params, 0, System(env, start, moves))
  {
    if moves != [] {
      var s, last := System(env, start, moves[..|moves| - 1]), moves[|moves| - 1];
      SystemInv(env, params, start, moves[..|moves| - 1]);
      if last.p == 0 {
        ActKeepsInv(env, params, 0, s, last.event);
      } else {
        SwapKeepsInv(env, params, 0, s);
        ActKeepsInv(env, params, 1, Swap(s), last.event);
        SwapKeepsInv(env, params, 1, Act(env, Swap(s), last.event));
      }
    }
  }

  /** x is exactly one version ahead: y has that very state staged and is about to enable it, because it
      either waits for the accept that is in flight to it or has just sent its own accept. */
  ghost predicate OneAhead(x: Party, y: Party) {
    && Current(x).Some? && Current(y).Some?
    && Current(x).value.version == (Current(y).value.version + 1) % UINT64_SIZE
    && y.m.staging.state == Current(x)
    && ((y.loc.Waiting? && exists i :: 0 <= i < |y.accs| && y.accs[i].version == Current(x).value.version) ||
        y.loc.Accepted?)
  }

  /** Agreement in every interleaving, and a party that is not in an update is never behind its peer. */
  lemma AgreementOnEveryRun(env: Env, params: Params, start: Pair, moves: seq<Move>)
    requires Lawful(env) && Initial(params, start)
    ensures var s := System(env, start, moves);
            && (Current(s.me) == Current(s.peer) || OneAhead(s.me, s.peer) || OneAhead(s.peer, s.me))
            && (s.me.loc.Idle? ==> Current(s.me) == Current(s.peer) || OneAhead(s.me, s.peer))
            && (s.peer.loc.Idle? ==> Current(s.me) == Current(s.peer) || OneAhead(s.peer, s.me))
  {
    SystemInv(env, params, start, moves);
    var s := System(env, start, moves);
    AheadMeansOneAhead(env, params, 0, s);
    SwapKeepsInv(env, params, 0, s);
    AheadMeansOneAhead(env, params, 1, Swap(s));
  }

  lemma AheadMeansOneAhead(env: Env, params: Params, p: nat, s: Pair)
    requires p < 2 && PairInv(env, params, p, s)
    ensures RunsAhead(s.me, s.peer) ==> OneAhead(s.me, s.peer)
  {
    if s.peer.loc.Waiting? && |s.peer.accs| == 1 && !s.me.loc.Accepted? {
      assert s.peer.accs[0].version == Current(s.me).value.version;
    }
  }
}

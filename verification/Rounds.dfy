/** What the update protocol achieves (client/update.go): which updates go through, how a rejection ends, and
    from which states everything under way can be brought to an end. */
module Rounds {
  import opened Base
  import opened Sums
  import opened Allocations
  import opened States
  import opened Machines
  import opened Agreement

  // ----- which updates there are, read off the fields

  /** Between one and 1024 assets and participants, at most 1024 locked entries, one amount everywhere and none negative. */
  predicate WellFormed(a: Allocation, numParts: nat) {
    && 1 <= |a.assets| <= 1024 && 1 <= numParts <= 1024 && |a.locked| <= 1024
    && |a.balances| == |a.assets|
    && (forall i :: 0 <= i < |a.balances| ==> |a.balances[i]| == numParts)
    && (forall i, j :: 0 <= i < |a.balances| && 0 <= j < numParts ==> a.balances[i][j] >= 0)
    && (forall k :: 0 <= k < |a.locked| ==> |a.locked[k].bals| == |a.assets|)
    && (forall k, i :: 0 <= k < |a.locked| && 0 <= i < |a.assets| ==> a.locked[k].bals[i] >= 0)
  }

  /** Per asset, participants and locked funds together have the same total. */
  predicate EqualTotals(a: Allocation, b: Allocation) {
    && |a.balances| == |b.balances|
    && forall i :: 0 <= i < |a.balances| ==>
         Sum(a.balances[i]) + LockedTotal(a.locked, i) == Sum(b.balances[i]) + LockedTotal(b.locked, i)
  }

  /** The next state of an open channel, of any width, any balances and final or not. */
  ghost predicate Successor(env: Env, params: Params, c: State, s: State, actor: Index) {
    && actor < |params.parts| && !c.isFinal
    && s.id == params.id && s.app == params.app
    && s.version == (if c.version + 1 == 0x1_0000_0000_0000_0000 then 0 else c.version + 1)
    && (exists n: nat :: WellFormed(s.alloc, n))
    && EqualTotals(c.alloc, s.alloc)
    && (params.app.NoApp? || env.validTransition(params, c, s, actor))
  }

  lemma WellFormedIff(a: Allocation)
    ensures ValidAlloc(a) <==> exists n: nat :: WellFormed(a, n)
  {
    if ValidAlloc(a) {
      assert forall i :: 0 <= i < |a.balances| ==> ValidRow(a.balances[i], |a.balances[0]|);
      assert WellFormed(a, |a.balances[0]|);
    }
    if n: nat :| WellFormed(a, n) {
      assert |a.balances[0]| == n;
      forall i | 0 <= i < |a.balances|
        ensures ValidRow(a.balances[i], n)
      {
      }
    }
  }

  lemma EqualTotalsIff(a: Allocation, b: Allocation)
    ensures EqualTotals(a, b) <==> SumAlloc(a) == SumAlloc(b)
  {
    if SumAlloc(a) == SumAlloc(b) {
      assert |SumAlloc(a)| == |SumAlloc(b)|;
      forall i | 0 <= i < |a.balances|
        ensures Sum(a.balances[i]) + LockedTotal(a.locked, i) == Sum(b.balances[i]) + LockedTotal(b.locked, i)
      {
        assert SumAlloc(a)[i] == SumAlloc(b)[i];
      }
    }
  }

  lemma SuccessorIff(env: Env, params: Params, c: State, s: State, actor: Index)
    requires c.version < UINT64_SIZE
    ensures ValidAppTransition(env, params, c, s, actor) <==> Successor(env, params, c, s, actor)
  {
    WellFormedIff(s.alloc);
    EqualTotalsIff(c.alloc, s.alloc);
  }

  // ----- a whole round

  /** Both parties at rest with the same current state; the one that moves first has index p. */
  ghost predicate BothRest(params: Params, p: nat, s: Pair) {
    && p < 2 && |params.parts| == 2
    && AtRest(params, p, s.me) && AtRest(params, 1 - p, s.peer)
    && Current(s.me) == Current(s.peer) && Current(s.me).value.version < UINT64_SIZE
  }

  /** The round in which the first party proposes and the second accepts. */
  function AcceptRound(t: State): seq<Move> {
    [Move(0, Propose(t)), Move(0, SendProposal), Move(1, RecvProposal(0)), Move(1, AcceptProposal),
     Move(1, SendAccept), Move(1, Finish), Move(0, RecvAccept(0))]
  }

  function Turn(env: Env, s: Pair, m: Move): Pair {
    if m.p == 0 then Act(env, s, m.event) else Swap(Act(env, Swap(s), m.event))
  }

  lemma SystemSnoc(env: Env, s: Pair, moves: seq<Move>, m: Move)
    ensures System(env, s, moves + [m]) == Turn(env, System(env, s, moves), m)
  {
    assert (moves + [m])[..|moves|] == moves;
  }

  lemma {:induction false} SystemAppend(env: Env, s: Pair, a: seq<Move>, b: seq<Move>)
    ensures System(env, s, a + b) == System(env, System(env, s, a), b)
  {
    if b == [] {
      assert a + b == a;
    } else {
      var init, m := b[..|b| - 1], b[|b| - 1];
      SystemAppend(env, s, a, init);
      SystemSnoc(env, s, a + init, m);
      SystemSnoc(env, System(env, s, a), init, m);
      assert init + [m] == b && a + init + [m] == a + b;
    }
  }

  lemma SystemCons(env: Env, s: Pair, m: Move, moves: seq<Move>)
    ensures System(env, s, [m] + moves) == System(env, Turn(env, s, m), moves)
  {
    SystemAppend(env, s, [m], moves);
    SystemSnoc(env, s, [], m);
    assert [] + [m] == [m];
  }

  /** What one side is after its update went through: the old transaction is history, nothing is staged. */
  ghost predicate Moved(before: Machine, after: Machine, t: State) {
    && after.params == before.params && after.idx == before.idx
    && after.prev == before.prev + [before.current]
    && after.current.state == Some(t) && FullySigned(after.current) && |after.current.sigs| == |before.params.parts|
    && after.staging == EMPTY_TX
    && after.phase == if t.isFinal then Final else Acting
  }

  lemma RestInv(env: Env, params: Params, p: nat, s: Pair)
    requires BothRest(params, p, s)
    ensures PairInv(env, params, p, s)
  {
  }

  /** A party that is free accepts every proposal that reaches it for checking: nothing is dropped. */
  lemma ProposalPassesCheck(env: Env, params: Params, p: nat, s: Pair)
    requires p < 2 && Lawful(env) && PairInv(env, params, p, s) && s.me.loc.Idle? && s.me.props != []
    ensures Act(env, s, RecvProposal(0)) == s.(me := s.me.(props := [], loc := Handling(s.me.props[0])))
    ensures s.me.props == [Proposal(s.peer.m.staging.state.value, 1 - p, OwnSig(s.peer.m))]
    ensures Current(s.me) == Current(s.peer)
  {
    assert Pending(s.peer, s.me) == 1 && s.peer.loc.Waiting?;
    var t := s.peer.m.staging.state.value;
    assert |s.me.props| == 1 && s.me.props[0] == Proposal(t, 1 - p, env.sign(params.parts[1 - p], t));
    assert !RunsAhead(s.me, s.peer) && !RunsAhead(s.peer, s.me);
    assert Remove(s.me.props, 0) == [];
  }

  /** The pair after the first so many moves of the round. */
  function AfterPropose(env: Env, s: Pair, t: State): Pair {
    Act(env, Act(env, s, Propose(t)), SendProposal)
  }

  /** The machine with an update staged and signed by itself. */
  function Staging(env: Env, m: Machine, t: State): Machine {
    Step(env, Stage(m, Signing, t), Sign)
  }

  lemma StagingIs(env: Env, m: Machine, t: State)
    ensures var n := Staging(env, m, t);
            n == m.(phase := Signing, staging := n.staging) && n.staging.state == Some(t)
  {
  }

  /** A party free to propose, whose current state is c. */
  ghost predicate Free(params: Params, p: nat, me: Party, c: State) {
    && p < |params.parts| && me.loc.Idle? && me.m.params == params && me.m.idx == p
    && Resting(me.m) && Current(me) == Some(c) && c.version < UINT64_SIZE
  }

  /** A free party stages and signs exactly the successors of its current state. */
  lemma ProposingIff(env: Env, params: Params, p: nat, s: Pair, c: State, t: State)
    requires Free(params, p, s.me, c)
    ensures Act(env, s, Propose(t)) ==
            if Successor(env, params, c, t, p) then s.(me := s.me.(m := Staging(env, s.me.m, t), loc := Signed)) else s
  {
    SuccessorIff(env, params, c, t, p);
    assert NewTx(s.me.m, t) == Stage(s.me.m, Signing, t).staging;
  }

  /** Proposing and sending. */
  lemma SendingProposal(env: Env, params: Params, p: nat, s: Pair, c: State, t: State)
    requires Free(params, p, s.me, c) && Successor(env, params, c, t, p)
    ensures var staged := Staging(env, s.me.m, t);
            AfterPropose(env, s, t) ==
            Pair(s.me.(m := staged, loc := Waiting), s.peer.(props := s.peer.props + [Proposal(t, p, OwnSig(staged))]))
  {
    ProposingIff(env, params, p, s, c, t);
    StagingIs(env, s.me.m, t);
  }

  lemma InvAfterPropose(env: Env, params: Params, p: nat, s: Pair, t: State)
    requires p < 2 && Lawful(env) && PairInv(env, params, p, s)
    ensures PairInv(env, params, p, AfterPropose(env, s, t))
  {
    ActKeepsInv(env, params, p, s, Propose(t));
    ActKeepsInv(env, params, p, Act(env, s, Propose(t)), SendProposal);
  }

  /** From two parties at rest, up to the proposal under way. */
  lemma ProposalSent(env: Env, params: Params, p: nat, s: Pair, t: State)
    requires Lawful(env) && BothRest(params, p, s) && Successor(env, params, Current(s.me).value, t, p)
    ensures var staged := Staging(env, s.me.m, t);
            && PairInv(env, params, p, AfterPropose(env, s, t))
            && AfterPropose(env, s, t) == Pair(s.me.(m := staged, loc := Waiting), s.peer.(props := [Proposal(t, p, OwnSig(staged))]))
  {
    SendingProposal(env, params, p, s, Current(s.me).value, t);
    RestInv(env, params, p, s);
    InvAfterPropose(env, params, p, s, t);
  }

  /** Enabling a fully signed update. */
  lemma EnablingMoves(env: Env, m: Machine)
    requires Staged(env, m, true)
    ensures Moved(m, EnableOrDiscard(env, m), m.staging.state.value)
  {
    EnableFull(env, m);
  }

  lemma TakingMoves(env: Env, params: Params, p: nat, me: Party, acc: Accept)
    requires p < 2 && Lawful(env) && PartyInv(env, params, p, me) && me.loc.Waiting?
    requires acc.sig == env.sign(params.parts[1 - p], me.m.staging.state.value)
    ensures var r := TakeAccept(env, me, acc);
            r == me.(m := r.m, loc := Idle) && Moved(me.m, r.m, me.m.staging.state.value)
  {
    var full := me.m.(staging := me.m.staging.(sigs := me.m.staging.sigs[1 - p := Some(acc.sig)]));
    assert Apply(env, me.m, AddSig(1 - p, acc.sig)) == Some(full);
    EnablingMoves(env, full);
  }

  /** Accepting, sending the accept and finishing, seen from the party that accepts. */
  lemma ProposalAccepted(env: Env, params: Params, p: nat, s: Pair)
    requires p < 2 && Lawful(env) && PairInv(env, params, p, s) && s.me.loc.Handling?
    ensures var t := s.me.loc.prop.state;
            var s2 := Act(env, Act(env, s, AcceptProposal), SendAccept);
            && s2.me == s.me.(m := s2.me.m, loc := Accepted) && Staged(env, s2.me.m, true)
            && s2.me.m == s.me.m.(phase := Signing, staging := s2.me.m.staging) && s2.me.m.staging.state == Some(t)
            && s2.peer == s.peer.(accs := s.peer.accs + [Accept(t.version, env.sign(params.parts[p], t))])
  {
    AcceptNeverFails(env, params, p, s.me);
  }

  lemma AcceptFinished(env: Env, s: Pair)
    requires s.me.loc.Accepted? && Staged(env, s.me.m, true)
    ensures var n := Act(env, s, Finish);
            n == Pair(s.me.(m := n.me.m, loc := Idle), s.peer) && Moved(s.me.m, n.me.m, s.me.m.staging.state.value)
  {
    EnablingMoves(env, s.me.m);
  }

  /** Taking the accept, seen from the party that proposed. */
  lemma AcceptTaken(env: Env, params: Params, p: nat, s: Pair)
    requires p < 2 && Lawful(env) && PairInv(env, params, p, s) && s.me.loc.Waiting? && s.me.accs != []
    ensures var n := Act(env, s, RecvAccept(0));
            n == Pair(s.me.(m := n.me.m, accs := [], loc := Idle), s.peer) && Moved(s.me.m, n.me.m, s.me.m.staging.state.value)
  {
    assert |s.me.accs| == 1 && Remove(s.me.accs, 0) == [];
    TakingMoves(env, params, p, s.me.(accs := []), s.me.accs[0]);
  }

  function AfterAccept(env: Env, s: Pair): Pair {
    Act(env, Act(env, Act(env, s, RecvProposal(0)), AcceptProposal), SendAccept)
  }

  lemma TwoMoves(env: Env, s: Pair, t: State)
    ensures System(env, s, [Move(0, Propose(t)), Move(0, SendProposal)]) == AfterPropose(env, s, t)
  {
    SystemSnoc(env, s, [], Move(0, Propose(t)));
    assert [] + [Move(0, Propose(t))] == [Move(0, Propose(t))];
    SystemSnoc(env, s, [Move(0, Propose(t))], Move(0, SendProposal));
    assert [Move(0, Propose(t))] + [Move(0, SendProposal)] == [Move(0, Propose(t)), Move(0, SendProposal)];
  }

  lemma SwapTwice(s: Pair)
    ensures Swap(Swap(s)) == s
  {
  }

  lemma FourMoves(env: Env, s: Pair)
    ensures System(env, s, [Move(1, RecvProposal(0)), Move(1, AcceptProposal), Move(1, SendAccept), Move(1, Finish)]) ==
            Swap(Act(env, AfterAccept(env, Swap(s)), Finish))
  {
    var a, b, c, d := Move(1, RecvProposal(0)), Move(1, AcceptProposal), Move(1, SendAccept), Move(1, Finish);
    SystemSnoc(env, s, [], a);
    assert [] + [a] == [a];
    SystemSnoc(env, s, [a], b);
    assert [a] + [b] == [a, b];
    SystemSnoc(env, s, [a, b], c);
    assert [a, b] + [c] == [a, b, c];
    SystemSnoc(env, s, [a, b, c], d);
    assert [a, b, c] + [d] == [a, b, c, d];
  }

  lemma RoundMoves(env: Env, s: Pair, t: State)
    ensures System(env, s, AcceptRound(t)) ==
            Act(env, Swap(Act(env, AfterAccept(env, Swap(AfterPropose(env, s, t))), Finish)), RecvAccept(0))
  {
    var a, b := [Move(0, Propose(t)), Move(0, SendProposal)], [Move(1, RecvProposal(0)), Move(1, AcceptProposal), Move(1, SendAccept), Move(1, Finish)];
    assert AcceptRound(t) == a + b + [Move(0, RecvAccept(0))];
    TwoMoves(env, s, t);
    FourMoves(env, AfterPropose(env, s, t));
    SystemAppend(env, s, a, b);
    SystemSnoc(env, s, a + b, Move(0, RecvAccept(0)));
  }

  /** The middle of the round: the peer checks, accepts, answers and finishes. */
  lemma PeerAnswers(env: Env, params: Params, p: nat, s: Pair)
    requires p < 2 && Lawful(env) && PairInv(env, params, p, s) && s.me.loc.Idle? && s.me.props != []
    ensures var t := s.peer.m.staging.state;
            var n := Act(env, AfterAccept(env, s), Finish);
            && PairInv(env, params, p, n) && t.Some?
            && n.me == s.me.(m := n.me.m, props := []) && Moved(s.me.m, n.me.m, t.value)
            && n.peer == s.peer.(accs := [Accept(t.value.version, env.sign(params.parts[p], t.value))])
  {
    ProposalPassesCheck(env, params, p, s);
    var s1 := Act(env, s, RecvProposal(0));
    ActKeepsInv(env, params, p, s, RecvProposal(0));
    assert Pending(s.peer, s.me) == 1;
    ProposalAccepted(env, params, p, s1);
    ActKeepsInv(env, params, p, s1, AcceptProposal);
    ActKeepsInv(env, params, p, Act(env, s1, AcceptProposal), SendAccept);
    ActKeepsInv(env, params, p, AfterAccept(env, s), Finish);
    AcceptFinished(env, AfterAccept(env, s));
  }

  lemma RefusedRound(env: Env, params: Params, p: nat, s: Pair, t: State)
    requires BothRest(params, p, s) && !Successor(env, params, Current(s.me).value, t, p)
    ensures System(env, s, AcceptRound(t)) == s
  {
    RoundMoves(env, s, t);
    ProposingIff(env, params, p, s, Current(s.me).value, t);
    assert AfterPropose(env, s, t) == s;
    assert AfterAccept(env, Swap(s)) == Swap(s);
  }

  /** Where both machines have moved to a state with nothing in flight, both parties are at rest again. */
  lemma RestAgain(env: Env, params: Params, p: nat, s: Pair, n: Pair, t: State)
    requires BothRest(params, p, s) && Successor(env, params, Current(s.me).value, t, p)
    requires Moved(s.me.m, n.me.m, t) && Moved(s.peer.m, n.peer.m, t)
    requires n == Pair(Party(n.me.m, Idle, [], [], []), Party(n.peer.m, Idle, [], [], []))
    ensures BothRest(params, p, n)
  {
  }

  lemma AcceptedRound(env: Env, params: Params, p: nat, s: Pair, t: State)
    requires Lawful(env) && BothRest(params, p, s) && Successor(env, params, Current(s.me).value, t, p)
    ensures var n := System(env, s, AcceptRound(t));
            && n == Pair(Party(n.me.m, Idle, [], [], []), Party(n.peer.m, Idle, [], [], []))
            && Moved(s.me.m, n.me.m, t) && Moved(s.peer.m, n.peer.m, t)
  {
    RoundMoves(env, s, t);
    ProposalSent(env, params, p, s, t);
    var s2 := AfterPropose(env, s, t);
    SwapKeepsInv(env, params, p, s2);
    PeerAnswers(env, params, 1 - p, Swap(s2));
    var s6 := Act(env, AfterAccept(env, Swap(s2)), Finish);
    SwapKeepsInv(env, params, 1 - p, s6);
    StagingIs(env, s.me.m, t);
    AcceptTaken(env, params, p, Swap(s6));
  }

  /** The round goes through exactly for the successors of the current state, read off the fields: then both parties
      are at rest again with that state as their current one; otherwise nothing happens. */
  lemma RoundGoesThrough(env: Env, params: Params, p: nat, s: Pair, t: State)
    requires Lawful(env) && BothRest(params, p, s)
    ensures var n := System(env, s, AcceptRound(t));
            if Successor(env, params, Current(s.me).value, t, p) then
              && BothRest(params, p, n) && Moved(s.me.m, n.me.m, t) && Moved(s.peer.m, n.peer.m, t)
            else n == s
  {
    if Successor(env, params, Current(s.me).value, t, p) {
      AcceptedRound(env, params, p, s, t);
      RestAgain(env, params, p, s, System(env, s, AcceptRound(t)), t);
    } else {
      RefusedRound(env, params, p, s, t);
    }
  }

  // ----- any number of rounds

  datatype Payment = Payment(byFirst: bool, state: State)

  function Flip(moves: seq<Move>): seq<Move> {
    seq(|moves|, i requires 0 <= i < |moves| => Move(if moves[i].p == 0 then 1 else 0, moves[i].event))
  }

  lemma {:induction false} SystemFlip(env: Env, s: Pair, moves: seq<Move>)
    ensures System(env, Swap(s), Flip(moves)) == Swap(System(env, s, moves))
  {
    if moves != [] {
      SystemFlip(env, s, moves[..|moves| - 1]);
      assert Flip(moves)[..|moves| - 1] == Flip(moves[..|moves| - 1]);
    }
  }

  function RoundOf(u: Payment): seq<Move> {
    if u.byFirst then AcceptRound(u.state) else Flip(AcceptRound(u.state))
  }

  function AllRounds(us: seq<Payment>): seq<Move> {
    if us == [] then [] else AllRounds(us[..|us| - 1]) + RoundOf(us[|us| - 1])
  }

  function LastState(c: State, us: seq<Payment>): State {
    if us == [] then c else us[|us| - 1].state
  }

  /** Each update is a successor of the one before, as proposed by its proposer. */
  ghost predicate Chain(env: Env, params: Params, p: nat, c: State, us: seq<Payment>)
    requires p < 2
  {
    us == [] ||
    (var init, u := us[..|us| - 1], us[|us| - 1];
     Chain(env, params, p, c, init) && Successor(env, params, LastState(c, init), u.state, if u.byFirst then p else 1 - p))
  }

  lemma OneOfChain(env: Env, params: Params, p: nat, s: Pair, u: Payment)
    requires Lawful(env) && BothRest(params, p, s)
    requires Successor(env, params, Current(s.me).value, u.state, if u.byFirst then p else 1 - p)
    ensures var n := System(env, s, RoundOf(u));
            BothRest(params, p, n) && Moved(s.me.m, n.me.m, u.state) && Moved(s.peer.m, n.peer.m, u.state)
  {
    if u.byFirst {
      RoundGoesThrough(env, params, p, s, u.state);
    } else {
      RoundGoesThrough(env, params, 1 - p, Swap(s), u.state);
      SystemFlip(env, Swap(s), AcceptRound(u.state));
    }
  }

  /** Every chain of successors, proposed by either party in any order, is played to its end: both parties are at rest
      with its last state and have one more entry of history per update. */
  lemma {:induction false} ChainGoesThrough(env: Env, params: Params, p: nat, s: Pair, us: seq<Payment>)
    requires Lawful(env) && BothRest(params, p, s) && Chain(env, params, p, Current(s.me).value, us)
    ensures var n := System(env, s, AllRounds(us));
            && BothRest(params, p, n) && Current(n.me) == Some(LastState(Current(s.me).value, us))
            && |n.me.m.prev| == |s.me.m.prev| + |us| && |n.peer.m.prev| == |s.peer.m.prev| + |us|
  {
    if us != [] {
      var init, u := us[..|us| - 1], us[|us| - 1];
      ChainGoesThrough(env, params, p, s, init);
      OneOfChain(env, params, p, System(env, s, AllRounds(init)), u);
      SystemAppend(env, s, AllRounds(init), RoundOf(u));
    }
  }

  // ----- rejections and failed sends

  /** A rejection reaches the proposer that waits for it: both parties are free again, as before the round. */
  lemma RejectionTaken(env: Env, params: Params, p: nat, s: Pair)
    requires p < 2 && PairInv(env, params, p, s) && s.me.loc.Handling?
    ensures var n := Swap(Act(env, Swap(Act(env, s, RejectProposal)), RecvReject(0)));
            && n.me == s.me.(loc := Idle)
            && n.peer == s.peer.(m := s.peer.m.(phase := Acting, staging := EMPTY_TX), loc := Idle)
            && Resting(n.me.m) && Resting(n.peer.m) && Current(n.me) == Current(n.peer) == Current(s.me)
  {
    assert Pending(s.peer, s.me) == 1 && s.peer.loc.Waiting?;
    DiscardStaged(env, s.peer.m, false);
    assert !RunsAhead(s.me, s.peer) && !RunsAhead(s.peer, s.me);
    assert Remove(Act(env, s, RejectProposal).peer.rejs, 0) == [];
  }

  /** A proposal that could not be sent leaves no trace. */
  lemma FailedSendUndone(env: Env, s: Pair, t: State)
    requires s.me.loc.Idle? && Resting(s.me.m)
    ensures Act(env, s, Propose(t)) != s ==> Act(env, Act(env, s, Propose(t)), SendFails) == s
  {
  }

  // ----- bringing everything under way to an end

  /** A move that goes on with what is under way: nothing new is proposed, no message fails and no request is ignored. */
  predicate GoesOn(e: Event) {
    !e.Propose? && !e.SendFails? && !e.IgnoreProposal?
  }

  /** Free with nothing to check, or waiting with no answer there. */
  predicate Quiet(x: Party) {
    (x.loc.Idle? && x.props == []) || (x.loc.Waiting? && x.accs == [] && x.rejs == [])
  }

  ghost predicate Stuck(env: Env, s: Pair) {
    forall e :: GoesOn(e) ==> Act(env, s, e) == s && Act(env, Swap(s), e) == Swap(s)
  }

  /** The next move of a party that is not quiet. */
  function NextMove(x: Party): Event
    requires !Quiet(x)
  {
    match x.loc
    case Idle => RecvProposal(0)
    case Signed => SendProposal
    case Waiting => if x.accs != [] then RecvAccept(0) else RecvReject(0)
    case Handling(_) => AcceptProposal
    case Accepting => SendAccept
    case Accepted => Finish
  }

  lemma NextMoveMoves(env: Env, params: Params, p: nat, s: Pair)
    requires p < 2 && PairInv(env, params, p, s) && !Quiet(s.me)
    ensures GoesOn(NextMove(s.me)) && Act(env, s, NextMove(s.me)) != s
  {
    if s.me.loc.Idle? {
      assert |Remove(s.me.props, 0)| < |s.me.props|;
    }
  }

  lemma QuietStays(env: Env, params: Params, p: nat, s: Pair, e: Event)
    requires p < 2 && PairInv(env, params, p, s) && Quiet(s.me) && GoesOn(e)
    ensures Act(env, s, e) == s
  {
  }

  /** Nothing can go on exactly if both parties are quiet. */
  lemma StuckIffQuiet(env: Env, params: Params, p: nat, s: Pair)
    requires p < 2 && PairInv(env, params, p, s)
    ensures Stuck(env, s) <==> Quiet(s.me) && Quiet(s.peer)
  {
    SwapKeepsInv(env, params, p, s);
    if Quiet(s.me) && Quiet(s.peer) {
      forall e | GoesOn(e)
        ensures Act(env, s, e) == s && Act(env, Swap(s), e) == Swap(s)
      {
        QuietStays(env, params, p, s, e);
        QuietStays(env, params, 1 - p, Swap(s), e);
      }
    } else if !Quiet(s.me) {
      NextMoveMoves(env, params, p, s);
    } else {
      NextMoveMoves(env, params, 1 - p, Swap(s));
    }
  }

  /** How much is left to do at most. */
  function Left(x: Party): nat {
    (match x.loc
     case Idle => 0
     case Signed => 8
     case Waiting => 1
     case Handling(_) => 5
     case Accepting => 4
     case Accepted => 1) + 6 * |x.props| + |x.accs| + |x.rejs|
  }

  function AllLeft(s: Pair): nat {
    Left(s.me) + Left(s.peer)
  }

  lemma GoingOnLeavesLess(env: Env, s: Pair, e: Event)
    requires GoesOn(e)
    ensures Act(env, s, e) == s || AllLeft(Act(env, s, e)) < AllLeft(s)
  {
  }

  /** The proposal was dropped: its proposer waits and nothing of its round is under way. */
  predicate Abandoned(x: Party, y: Party) {
    x.loc.Waiting? && Pending(x, y) == 0
  }

  /** Both have proposed and neither is answered; each holds its machine while it waits. */
  predicate Crossed(x: Party, y: Party) {
    && (x.loc.Signed? || x.loc.Waiting?) && (y.loc.Signed? || y.loc.Waiting?)
    && x.accs == [] && x.rejs == [] && y.accs == [] && y.rejs == []
  }

  predicate Blocked(s: Pair) {
    Abandoned(s.me, s.peer) || Abandoned(s.peer, s.me) || Crossed(s.me, s.peer)
  }

  lemma ReceivingKeepsBlocked(env: Env, params: Params, p: nat, s: Pair, i: nat)
    requires p < 2 && Lawful(env) && PairInv(env, params, p, s)
    ensures Blocked(Act(env, s, RecvProposal(i))) == Blocked(s)
  {
    if s.me.loc.Idle? && i < |s.me.props| {
      ProposalPassesCheck(env, params, p, s);
    }
  }

  lemma AcceptingKeepsBlocked(env: Env, params: Params, p: nat, s: Pair)
    requires p < 2 && Lawful(env) && PairInv(env, params, p, s)
    ensures Blocked(Act(env, s, AcceptProposal)) == Blocked(s)
  {
    if s.me.loc.Handling? {
      AcceptNeverFails(env, params, p, s.me);
    }
  }

  lemma AnsweringKeepsBlocked(env: Env, params: Params, p: nat, s: Pair)
    requires p < 2 && PairInv(env, params, p, s)
    ensures Blocked(Act(env, s, SendProposal)) == Blocked(s)
    ensures Blocked(Act(env, s, SendAccept)) == Blocked(s)
    ensures Blocked(Act(env, s, RejectProposal)) == Blocked(s)
  {
  }

  lemma FinishingKeepsBlocked(env: Env, params: Params, p: nat, s: Pair, e: Event)
    requires p < 2 && PairInv(env, params, p, s) && (e.Finish? || e.RecvAccept? || e.RecvReject?)
    ensures Blocked(Act(env, s, e)) == Blocked(s)
  {
  }

  /** Going on neither blocks the parties nor unblocks them. */
  lemma BlockedStays(env: Env, params: Params, p: nat, s: Pair, e: Event)
    requires p < 2 && Lawful(env) && PairInv(env, params, p, s) && GoesOn(e)
    ensures Blocked(Act(env, s, e)) == Blocked(s)
  {
    match e
    case RecvProposal(i) => ReceivingKeepsBlocked(env, params, p, s, i);
    case AcceptProposal => AcceptingKeepsBlocked(env, params, p, s);
    case SendProposal => AnsweringKeepsBlocked(env, params, p, s);
    case SendAccept => AnsweringKeepsBlocked(env, params, p, s);
    case RejectProposal => AnsweringKeepsBlocked(env, params, p, s);
    case _ => FinishingKeepsBlocked(env, params, p, s, e);
  }

  /** Both parties are free, nothing is in flight, and they agree. */
  ghost predicate Done(s: Pair) {
    && s.me == Party(s.me.m, Idle, [], [], []) && s.peer == Party(s.peer.m, Idle, [], [], [])
    && Resting(s.me.m) && Resting(s.peer.m) && Current(s.me) == Current(s.peer)
  }

  lemma QuietIsDone(env: Env, params: Params, p: nat, s: Pair)
    requires p < 2 && PairInv(env, params, p, s) && Quiet(s.me) && Quiet(s.peer)
    ensures Done(s) <==> !Blocked(s)
  {
  }

  lemma TurnKeeps(env: Env, params: Params, s: Pair, m: Move)
    requires Lawful(env) && PairInv(env, params, 0, s)
    ensures PairInv(env, params, 0, Turn(env, s, m))
    ensures GoesOn(m.event) ==> Blocked(Turn(env, s, m)) == Blocked(s)
    ensures GoesOn(m.event) ==> Turn(env, s, m) == s || AllLeft(Turn(env, s, m)) < AllLeft(s)
  {
    if m.p == 0 {
      ActKeepsInv(env, params, 0, s, m.event);
      if GoesOn(m.event) {
        BlockedStays(env, params, 0, s, m.event);
        GoingOnLeavesLess(env, s, m.event);
      }
    } else {
      SwapKeepsInv(env, params, 0, s);
      ActKeepsInv(env, params, 1, Swap(s), m.event);
      SwapKeepsInv(env, params, 1, Act(env, Swap(s), m.event));
      if GoesOn(m.event) {
        BlockedStays(env, params, 1, Swap(s), m.event);
        GoingOnLeavesLess(env, Swap(s), m.event);
      }
    }
  }

  predicate AllGoOn(moves: seq<Move>) {
    forall i :: 0 <= i < |moves| ==> GoesOn(moves[i].event)
  }

  lemma {:induction false} GoingOnKeeps(env: Env, params: Params, s: Pair, moves: seq<Move>)
    requires Lawful(env) && PairInv(env, params, 0, s) && AllGoOn(moves)
    ensures PairInv(env, params, 0, System(env, s, moves)) && Blocked(System(env, s, moves)) == Blocked(s)
  {
    if moves != [] {
      GoingOnKeeps(env, params, s, moves[..|moves| - 1]);
      TurnKeeps(env, params, System(env, s, moves[..|moves| - 1]), moves[|moves| - 1]);
    }
  }

  /** However the parties go on from a reachable state, when nothing can go on any more they are both free and agree,
      exactly if no proposal was dropped and no two proposals crossed before. */
  lemma EndsWellIff(env: Env, params: Params, s: Pair, moves: seq<Move>)
    requires Lawful(env) && PairInv(env, params, 0, s) && AllGoOn(moves) && Stuck(env, System(env, s, moves))
    ensures Done(System(env, s, moves)) <==> !Blocked(s)
  {
    GoingOnKeeps(env, params, s, moves);
    var n := System(env, s, moves);
    StuckIffQuiet(env, params, 0, n);
    QuietIsDone(env, params, 0, n);
  }

  lemma SomeTurn(env: Env, params: Params, s: Pair) returns (m: Move)
    requires Lawful(env) && PairInv(env, params, 0, s) && !(Quiet(s.me) && Quiet(s.peer))
    ensures GoesOn(m.event) && Turn(env, s, m) != s
  {
    if !Quiet(s.me) {
      NextMoveMoves(env, params, 0, s);
      m := Move(0, NextMove(s.me));
    } else {
      SwapKeepsInv(env, params, 0, s);
      NextMoveMoves(env, params, 1, Swap(s));
      m := Move(1, NextMove(s.peer));
      SwapTwice(Turn(env, s, m));
    }
  }

  /** And there is such a way to go on, of at most AllLeft moves. */
  lemma {:induction false} EndIsReached(env: Env, params: Params, s: Pair) returns (moves: seq<Move>)
    requires Lawful(env) && PairInv(env, params, 0, s)
    ensures AllGoOn(moves) && |moves| <= AllLeft(s) && Stuck(env, System(env, s, moves))
    decreases AllLeft(s)
  {
    StuckIffQuiet(env, params, 0, s);
    if Quiet(s.me) && Quiet(s.peer) {
      return [];
    }
    var m := SomeTurn(env, params, s);
    TurnKeeps(env, params, s, m);
    var rest := EndIsReached(env, params, Turn(env, s, m));
    moves := [m] + rest;
    SystemCons(env, s, m, rest);
  }

  /** So from every state of a run from two parties at rest, everything under way comes to an end with both parties free
      and agreeing, unless a proposal was dropped or two crossed. */
  lemma NoRunGetsStuck(env: Env, params: Params, start: Pair, before: seq<Move>) returns (after: seq<Move>)
    requires Lawful(env) && Initial(params, start)
    ensures AllGoOn(after)
    ensures Done(System(env, start, before + after)) <==> !Blocked(System(env, start, before))
  {
    SystemInv(env, params, start, before);
    var s := System(env, start, before);
    after := EndIsReached(env, params, s);
    EndsWellIff(env, params, s, after);
    SystemAppend(env, start, before, after);
  }

  /** Two proposals cross: each party waits for the other, and nothing goes on. */
  lemma CrossingBlocks(env: Env, params: Params, p: nat, s: Pair, t: State, u: State)
    requires Lawful(env) && BothRest(params, p, s)
    requires Successor(env, params, Current(s.me).value, t, p) && Successor(env, params, Current(s.me).value, u, 1 - p)
    ensures var n := Swap(AfterPropose(env, Swap(AfterPropose(env, s, t)), u));
            Crossed(n.me, n.peer) && n.me.loc.Waiting? && n.peer.loc.Waiting? && Stuck(env, n)
  {
    var c, s2 := Current(s.me).value, AfterPropose(env, s, t);
    ProposalSent(env, params, p, s, t);
    SwapKeepsInv(env, params, p, s2);
    SendingProposal(env, params, 1 - p, Swap(s2), c, u);
    InvAfterPropose(env, params, 1 - p, Swap(s2), u);
    var n := Swap(AfterPropose(env, Swap(s2), u));
    SwapKeepsInv(env, params, 1 - p, Swap(n));
    StuckIffQuiet(env, params, p, n);
  }
}

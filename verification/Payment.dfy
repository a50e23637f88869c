/** The payment app (apps/payment/app.go) and what it guarantees over runs of the channel machine. */
module Payments {
  import opened Base
  import opened Sums
  import opened Allocations
  import opened States
  import opened Machines

  /** The balances of from all exist in to. */
  predicate Covers(to: Balances, from: Balances) {
    forall i :: 0 <= i < |from| && |from[i]| > 0 ==> i < |to| && |from[i]| <= |to[i]|
  }

  /** Money flows only from the actor to the other participants. */
  predicate PaysOnly(from: Balances, to: Balances, actor: Index) {
    && Covers(to, from)
    && forall i, j :: 0 <= i < |from| && 0 <= j < |from[i]| ==>
         if j == actor then to[i][j] <= from[i][j] else from[i][j] <= to[i][j]
  }

  predicate PaymentAccepts(from: State, to: State, actor: Index) {
    to.data == [] && PaysOnly(from.alloc.balances, to.alloc.balances, actor)
  }

  datatype Verdict = Accepted | Rejected | Panicked

  predicate HasPlace(to: Balances, i: nat, j: nat) {
    i < |to| && j < |to[i]|
  }

  /** The balance at a place is there and moves in the right direction. */
  predicate GoodAt(from: Balances, to: Balances, actor: Index, i: nat, j: nat)
    requires HasPlace(from, i, j)
  {
    HasPlace(to, i, j) && if j == actor then to[i][j] <= from[i][j] else from[i][j] <= to[i][j]
  }

  /** The first place, asset by asset, that is not good. */
  predicate FirstBad(from: Balances, to: Balances, actor: Index, i: nat, j: nat) {
    && HasPlace(from, i, j) && !GoodAt(from, to, actor, i, j)
    && (forall y: nat :: y < j ==> GoodAt(from, to, actor, i, y))
    && (forall x: nat, y: nat :: x < i && y < |from[x]| ==> GoodAt(from, to, actor, x, y))
  }

  /** App.ValidTransition: it panics on app data, and where the first bad place is missing in the new state. */
  method ValidTransition(from: State, to: State, actor: Index) returns (v: Verdict)
    ensures v == Accepted <==> PaymentAccepts(from, to, actor)
    ensures v == Panicked <==> to.data != [] ||
                               exists i: nat, j: nat :: FirstBad(from.alloc.balances, to.alloc.balances, actor, i, j) &&
                                                        !HasPlace(to.alloc.balances, i, j)
  {
    if to.data != [] {
      return Panicked;
    }
    var bals, after := from.alloc.balances, to.alloc.balances;
    for i := 0 to |bals|
      invariant forall x: nat, y: nat :: x < i && y < |bals[x]| ==> GoodAt(bals, after, actor, x, y)
    {
      for j := 0 to |bals[i]|
        invariant forall y: nat :: y < j ==> GoodAt(bals, after, actor, i, y)
      {
        if i >= |after| || j >= |after[i]| {
          assert FirstBad(bals, after, actor, i, j);
          return Panicked;
        }
        if (j == actor && bals[i][j] < after[i][j]) || (j != actor && bals[i][j] > after[i][j]) {
          assert FirstBad(bals, after, actor, i, j);
          OneFirstBad(bals, after, actor, i, j);
          return Rejected;
        }
      }
    }
    AllGood(bals, after, actor);
    v := Accepted;
  }

  lemma OneFirstBad(from: Balances, to: Balances, actor: Index, i: nat, j: nat)
    requires FirstBad(from, to, actor, i, j)
    ensures forall x: nat, y: nat :: FirstBad(from, to, actor, x, y) ==> x == i && y == j
    ensures !PaysOnly(from, to, actor)
  {
  }

  lemma AllGood(from: Balances, to: Balances, actor: Index)
    requires forall x: nat, y: nat :: x < |from| && y < |from[x]| ==> GoodAt(from, to, actor, x, y)
    ensures PaysOnly(from, to, actor)
    ensures forall x: nat, y: nat :: !FirstBad(from, to, actor, x, y)
  {
    forall i | 0 <= i < |from| && |from[i]| > 0
      ensures i < |to| && |from[i]| <= |to[i]|
    {
      assert GoodAt(from, to, actor, i, |from[i]| - 1);
    }
    forall i, j | 0 <= i < |from| && 0 <= j < |from[i]|
      ensures if j == actor then to[i][j] <= from[i][j] else from[i][j] <= to[i][j]
    {
      assert GoodAt(from, to, actor, i, j);
    }
  }

  // ----- one step

  /** What everyone but one participant holds. */
  function SumExcept(row: seq<int>, p: nat): int {
    if row == [] then 0
    else SumExcept(row[..|row| - 1], p) + if |row| - 1 == p then 0 else row[|row| - 1]
  }

  lemma {:induction false} SumSplits(row: seq<int>, p: nat)
    ensures Sum(row) == SumExcept(row, p) + if p < |row| then row[p] else 0
  {
    if row != [] {
      SumSplits(row[..|row| - 1], p);
      SumSnoc(row[..|row| - 1], row[|row| - 1]);
      assert row == row[..|row| - 1] + [row[|row| - 1]];
    }
  }

  lemma {:induction false} OthersGain(from: seq<int>, to: seq<int>, p: nat)
    requires |from| == |to| && forall j :: 0 <= j < |from| && j != p ==> from[j] <= to[j]
    ensures SumExcept(from, p) <= SumExcept(to, p)
  {
    if from != [] {
      OthersGain(from[..|from| - 1], to[..|to| - 1], p);
    }
  }

  /** In an accepted step with the same participants, what the actor pays of an asset is what the others gain
      and what is newly locked. */
  lemma ActorPays(params: Params, from: State, to: State, actor: Index, asset: nat)
    requires States.ValidTransition(params, from, to) && PaymentAccepts(from, to, actor) && ValidAlloc(from.alloc)
    requires NumParts(to.alloc) == NumParts(from.alloc) && asset < |from.alloc.balances|
    ensures asset < |to.alloc.balances|
    ensures var b, b' := from.alloc.balances[asset], to.alloc.balances[asset];
            var paid := (if actor < |b| then b[actor] else 0) - (if actor < |b'| then b'[actor] else 0);
            var gained := SumExcept(b', actor) - SumExcept(b, actor);
            var locked := LockedTotal(to.alloc.locked, asset) - LockedTotal(from.alloc.locked, asset);
            paid == gained + locked && paid >= 0 && gained >= 0
  {
    assert |SumAlloc(from.alloc)| == |SumAlloc(to.alloc)|;
    var b, b' := from.alloc.balances[asset], to.alloc.balances[asset];
    assert SumAlloc(from.alloc)[asset] == SumAlloc(to.alloc)[asset];
    assert ValidRow(b, NumParts(from.alloc)) && ValidRow(b', NumParts(to.alloc));
    SumSplits(b, actor);
    SumSplits(b', actor);
    OthersGain(b, b', actor);
  }

  // ----- runs

  /** The app of the channel is the payment app. */
  ghost predicate RunsPayments(env: Env, params: Params) {
    && params.app.AppDef?
    && forall from, to, actor :: env.validTransition(params, from, to, actor) <==> PaymentAccepts(from, to, actor)
  }

  /** A participant has at least as much of every asset as before. */
  ghost predicate Keeps(from: State, to: State, p: nat) {
    forall i :: 0 <= i < |from.alloc.balances| && p < |from.alloc.balances[i]| ==>
      i < |to.alloc.balances| && p < |to.alloc.balances[i]| && from.alloc.balances[i][p] <= to.alloc.balances[i][p]
  }

  lemma KeepsTransitive(a: State, b: State, c: State, p: nat)
    requires Keeps(a, b, p) && Keeps(b, c, p)
    ensures Keeps(a, c, p)
  {
  }

  ghost predicate NeverActor(ops: seq<Op>, p: nat) {
    forall i :: 0 <= i < |ops| ==> OffChain(ops[i]) && (ops[i].Update? ==> ops[i].actor != p)
  }

  ghost predicate HistoryKeeps(m: Machine, p: nat) {
    var h := History(m);
    forall i, j :: 1 <= i <= j < |h| ==> h[i].state.Some? && h[j].state.Some? && Keeps(h[i].state.value, h[j].state.value, p)
  }

  ghost predicate StagedKeeps(m: Machine, p: nat) {
    m.phase == Signing ==>
      m.current.state.Some? && m.staging.state.Some? && Keeps(m.current.state.value, m.staging.state.value, p)
  }

  lemma StagedStep(env: Env, m: Machine, op: Op, p: nat)
    requires RunsPayments(env, m.params) && OffChain(op) && (op.Update? ==> op.actor != p) && StagedKeeps(m, p)
    ensures StagedKeeps(Step(env, m, op), p)
  {
  }

  lemma HistoryKeepsStep(env: Env, m: Machine, op: Op, p: nat)
    requires OffChain(op) && HistoryInv(m) && PhaseInv(m) && HistoryKeeps(m, p) && StagedKeeps(m, p)
    ensures HistoryKeeps(Step(env, m, op), p)
  {
    var n := Step(env, m, op);
    KeepsTransactions(env, m, op);
    var h, g := History(m), History(n);
    if n.prev == m.prev && n.current == m.current {
      assert g == h;
    } else {
      assert g == h + [m.staging] && h[|h| - 1] == m.current;
      forall i, j | 1 <= i <= j < |g|
        ensures g[i].state.Some? && g[j].state.Some? && Keeps(g[i].state.value, g[j].state.value, p)
      {
        if j < |h| {
          assert g[i] == h[i] && g[j] == h[j];
        } else if i < |h| {
          assert g[i] == h[i];
          KeepsTransitive(h[i].state.value, m.current.state.value, m.staging.state.value, p);
        }
      }
    }
  }

  /** In every run of a payment channel, a participant who is never the actor never loses any asset: later states
      of the history give it at least what earlier ones did. */
  lemma {:induction false} NonActorNeverLoses(env: Env, params: Params, idx: Index, ops: seq<Op>, p: nat)
    requires RunsPayments(env, params) && NeverActor(ops, p)
    ensures HistoryKeeps(Run(env, NewMachine(params, idx), ops), p)
    ensures StagedKeeps(Run(env, NewMachine(params, idx), ops), p)
  {
    if ops != [] {
      var init, last := ops[..|ops| - 1], ops[|ops| - 1];
      var m := Run(env, NewMachine(params, idx), init);
      NonActorNeverLoses(env, params, idx, init, p);
      HistoryOnEveryRun(env, params, idx, init);
      RunKeepsIdentity(env, NewMachine(params, idx), init);
      StagedStep(env, m, last, p);
      HistoryKeepsStep(env, m, last, p);
    }
  }
}

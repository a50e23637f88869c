/** Paying with the payment app over the update protocol (apps/payment/app.go, client/update.go). */
module Transfers {
  import opened Base
  import opened Sums
  import opened Allocations
  import opened States
  import opened Machines
  import opened Agreement
  import opened Rounds
  import opened Payments

  function Shifted(row: seq<Bal>, a: nat, b: nat, x: int): seq<Bal>
    requires a < |row| && b < |row| && a != b
  {
    row[a := row[a] - x][b := row[b] + x]
  }

  /** The next state in which a has paid x of an asset to b. */
  function Paid(c: State, asset: nat, a: nat, b: nat, x: int): State
    requires asset < |c.alloc.balances| && a < |c.alloc.balances[asset]| && b < |c.alloc.balances[asset]| && a != b
  {
    c.(version := (c.version + 1) % 0x1_0000_0000_0000_0000,
       alloc := c.alloc.(balances := c.alloc.balances[asset := Shifted(c.alloc.balances[asset], a, b, x)]))
  }

  /** An open payment channel of n participants. */
  ghost predicate Paying(env: Env, params: Params, c: State, n: nat) {
    && RunsPayments(env, params) && c.id == params.id && c.app == params.app && c.data == [] && !c.isFinal
    && c.version < 0x1_0000_0000_0000_0000 && WellFormed(c.alloc, n) && |params.parts| == n
  }

  lemma PaidKeepsTotals(c: State, asset: nat, a: nat, b: nat, x: int)
    requires asset < |c.alloc.balances| && a < |c.alloc.balances[asset]| && b < |c.alloc.balances[asset]| && a != b
    ensures EqualTotals(c.alloc, Paid(c, asset, a, b, x).alloc)
  {
    var row := c.alloc.balances[asset];
    SumUpdate(row, a, row[a] - x);
    SumUpdate(row[a := row[a] - x], b, row[b] + x);
  }

  lemma PaidWellFormedIff(c: State, n: nat, asset: nat, a: nat, b: nat, x: int)
    requires WellFormed(c.alloc, n) && asset < |c.alloc.balances| && a < n && b < n && a != b
    ensures (exists k: nat :: WellFormed(Paid(c, asset, a, b, x).alloc, k)) <==>
              c.alloc.balances[asset][a] - x >= 0 && c.alloc.balances[asset][b] + x >= 0
  {
    var s := Paid(c, asset, a, b, x).alloc;
    assert s.balances[asset][a] == c.alloc.balances[asset][a] - x && s.balances[asset][b] == c.alloc.balances[asset][b] + x;
    if s.balances[asset][a] >= 0 && s.balances[asset][b] >= 0 {
      assert WellFormed(s, n);
    }
    if k: nat :| WellFormed(s, k) {
      assert |s.balances[asset]| == n == k;
    }
  }

  lemma PaidAcceptedIff(c: State, n: nat, asset: nat, a: nat, b: nat, x: int, actor: nat)
    requires WellFormed(c.alloc, n) && c.data == [] && asset < |c.alloc.balances| && a < n && b < n && a != b
    ensures PaymentAccepts(c, Paid(c, asset, a, b, x), actor) <==>
              (if actor == a then x >= 0 else x <= 0) && (if actor == b then x <= 0 else x >= 0)
  {
    var from, to := c.alloc.balances, Paid(c, asset, a, b, x).alloc.balances;
    assert from[asset][a] - to[asset][a] == x && to[asset][b] - from[asset][b] == x;
    if PaysOnly(from, to, actor) {
      assert if a == actor then to[asset][a] <= from[asset][a] else from[asset][a] <= to[asset][a];
      assert if b == actor then to[asset][b] <= from[asset][b] else from[asset][b] <= to[asset][b];
    }
  }

  /** A payment from a to b is a next state exactly if it is not negative, a has it, and a is the actor; a payment of nothing may
      have any actor. */
  lemma PaymentIff(env: Env, params: Params, c: State, n: nat, asset: nat, a: nat, b: nat, x: int, actor: nat)
    requires Paying(env, params, c, n) && asset < |c.alloc.balances| && a < n && b < n && a != b && actor < n && x >= 0
    ensures Successor(env, params, c, Paid(c, asset, a, b, x), actor) <==>
              x == 0 || (actor == a && x <= c.alloc.balances[asset][a])
  {
    PaidKeepsTotals(c, asset, a, b, x);
    PaidWellFormedIff(c, n, asset, a, b, x);
    PaidAcceptedIff(c, n, asset, a, b, x, actor);
  }

  /** In a two-party payment channel at rest, paying x goes through exactly if the payer has it, and asking the other party to pay
      never does. */
  lemma PaymentGoesThrough(env: Env, params: Params, p: nat, s: Pair, asset: nat, x: int)
    requires Lawful(env) && BothRest(params, p, s) && Paying(env, params, Current(s.me).value, 2)
    requires asset < |Current(s.me).value.alloc.balances| && x > 0
    ensures var c := Current(s.me).value;
            var n := System(env, s, AcceptRound(Paid(c, asset, p, 1 - p, x)));
            if x <= c.alloc.balances[asset][p]
            then Current(n.me) == Current(n.peer) == Some(Paid(c, asset, p, 1 - p, x)) else n == s
    ensures var c := Current(s.me).value;
            System(env, s, AcceptRound(Paid(c, asset, 1 - p, p, x))) == s
  {
    var c := Current(s.me).value;
    PaymentIff(env, params, c, 2, asset, p, 1 - p, x, p);
    PaymentIff(env, params, c, 2, asset, 1 - p, p, x, p);
    RoundGoesThrough(env, params, p, s, Paid(c, asset, p, 1 - p, x));
    RoundGoesThrough(env, params, p, s, Paid(c, asset, 1 - p, p, x));
  }
}

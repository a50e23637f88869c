/** Two peers that dial each other at the same time (wire/net/endpoint_registry.go): the tie-break between the
    two connections, as the atomic steps of both registries in any order. */
module Endpoints {
  import opened Base
  import opened Keys

  /** The two peers. A connection is named after the peer that dialed it. */
  datatype Side = A | B {
    function Other(): Side {
      if this == A then B else A
    }
  }

  type Addresses = Side -> bytes

  /** The connection dialed by the peer with the greater address. */
  function Winner(addr: Addresses): Side {
    if Less(addr(A), addr(B)) then B else A
  }

  /** The test in replace: whether a side closes the connection it is adding. dialer says that it dialed it. */
  predicate ClosesNew(addr: Addresses, self: Side, conn: Side) {
    var dialer := conn == self;
    dialer == Less(addr(self), addr(self.Other()))
  }

  /** Both sides decide against the same connection, the one of the peer with the lesser address. */
  lemma SameDecision(addr: Addresses, self: Side, conn: Side)
    requires addr(A) != addr(B)
    ensures ClosesNew(addr, self, conn) <==> conn == Winner(addr).Other()
  {
    LessTotal(addr(A), addr(B));
    if Less(addr(B), addr(A)) {
      NotBoth(addr(A), addr(B));
    } else {
      NotBoth(addr(B), addr(A));
    }
  }

  /** Where one call of addEndpoint for one connection stands. */
  datatype Pc =
    | Idle
    | Replacing              // found an entry; about to compare and swap with nil
    | TieBreak               // found another endpoint in the entry
    | ClosingOld(was: Side)  // swapped itself in; about to close what it replaced
    | Receiving              // the receive loop is running
    | Deleting               // the receive loop ended; about to delete the endpoint
    | Gone                   // closed as the new endpoint, or deleted

  /** One side's registry entry for the other side. */
  datatype Node = Node(entry: bool, slot: Option<Side>, a: Pc, b: Pc) {
    function At(c: Side): Pc {
      if c == A then a else b
    }

    function Set(c: Side, p: Pc): Node {
      if c == A then this.(a := p) else this.(b := p)
    }

    /** The connection went through addEndpoint up to being installed or closed. */
    predicate Added(c: Side) {
      !At(c).Idle? && !At(c).Replacing? && !At(c).TieBreak?
    }
  }

  datatype Net = Net(a: Node, b: Node, closed: set<Side>, failed: set<Side>) {
    function At(s: Side): Node {
      if s == A then a else b
    }

    function Set(s: Side, n: Node): Net {
      if s == A then this.(a := n) else this.(b := n)
    }
  }

  datatype Event =
    | GetOrCreate(side: Side, conn: Side)
    | CompareAndSwap(side: Side, conn: Side)
    | Resolve(side: Side, conn: Side)
    | CloseOld(side: Side, conn: Side)
    | RecvEnds(side: Side, conn: Side)
    | Delete(side: Side, conn: Side)
    | Fail(conn: Side)

  /** One atomic step of one side; a step that is not due does nothing. Closing a connection closes it for both. */
  function NodeStep(addr: Addresses, n: Node, closed: set<Side>, e: Event): (Node, set<Side>)
    requires !e.Fail?
  {
    var c := e.conn;
    match e
    case GetOrCreate(_, _) =>
      if !n.At(c).Idle? then (n, closed)
      else if n.entry then (n.Set(c, Replacing), closed)
      else (n.(entry := true, slot := Some(c)).Set(c, Receiving), closed)
    case CompareAndSwap(_, _) =>
      if !n.At(c).Replacing? then (n, closed)
      else if n.slot.None? then (n.(slot := Some(c)).Set(c, Receiving), closed)
      else (n.Set(c, TieBreak), closed)
    case Resolve(s, _) =>
      if !n.At(c).TieBreak? then (n, closed)
      else if ClosesNew(addr, s, c) then (n.Set(c, Gone), closed + {c})
      else if n.slot.None? then (n.(slot := Some(c)).Set(c, Receiving), closed)
      else (n.(slot := Some(c)).Set(c, ClosingOld(n.slot.value)), closed)
    case CloseOld(_, _) =>
      if !n.At(c).ClosingOld? then (n, closed) else (n.Set(c, Receiving), closed + {n.At(c).was})
    case RecvEnds(_, _) =>
      if n.At(c).Receiving? && c in closed then (n.Set(c, Deleting), closed) else (n, closed)
    case Delete(_, _) =>
      if !n.At(c).Deleting? then (n, closed)
      else (n.(slot := if n.slot == Some(c) then None else n.slot).Set(c, Gone), closed)
  }

  function Step(addr: Addresses, net: Net, e: Event): Net {
    if e.Fail? then net.(closed := net.closed + {e.conn}, failed := net.failed + {e.conn})
    else
      var (n, closed) := NodeStep(addr, net.At(e.side), net.closed, e);
      net.Set(e.side, n).(closed := closed)
  }

  function Run(addr: Addresses, net: Net, events: seq<Event>): Net {
    if events == [] then net else Step(addr, Run(addr, net, events[..|events| - 1]), events[|events| - 1])
  }

  /** Nothing added yet; an entry may be left from an earlier connection. */
  function Start(entryA: bool, entryB: bool): Net {
    Net(Node(entryA, None, Idle, Idle), Node(entryB, None, Idle, Idle), {}, {})
  }

  /** While the winning connection w has not failed. */
  ghost predicate NodeInv(n: Node, w: Side, closed: set<Side>) {
    var l := w.Other();
    && w !in closed
    && (n.slot.Some? ==> n.entry)
    && (!n.At(l).Idle? || !n.At(w).Idle? ==> n.entry)
    // the winner sits in the slot from the moment it is added
    && (n.Added(w) <==> n.slot == Some(w))
    && (n.Added(w) ==> n.At(w) == Receiving || n.At(w) == ClosingOld(l))
    // the loser sits there while it is open, unless the winner is about to close it
    && (n.slot == Some(l) ==> n.At(l).Receiving? || n.At(l).Deleting?)
    && (n.At(l).Receiving? && l !in closed ==> n.slot == Some(l) || n.At(w) == ClosingOld(l))
    && (n.At(l).Deleting? || n.At(l).Gone? ==> l in closed)
    && !n.At(l).ClosingOld?
  }

  ghost predicate NetInv(addr: Addresses, net: Net) {
    var w := Winner(addr);
    w !in net.failed ==> NodeInv(net.a, w, net.closed) && NodeInv(net.b, w, net.closed)
  }

  lemma NodeStepKeepsInv(addr: Addresses, n: Node, closed: set<Side>, e: Event)
    requires addr(A) != addr(B) && !e.Fail? && NodeInv(n, Winner(addr), closed)
    ensures var (n2, closed2) := NodeStep(addr, n, closed, e); NodeInv(n2, Winner(addr), closed2) && closed <= closed2
  {
    SameDecision(addr, e.side, e.conn);
  }

  /** More closed connections do no harm to the other side, as long as the winner is not among them. */
  lemma OtherSideKeepsInv(n: Node, w: Side, closed: set<Side>, closed2: set<Side>)
    requires NodeInv(n, w, closed) && closed <= closed2 && w !in closed2
    ensures NodeInv(n, w, closed2)
  {
  }

  lemma StepKeepsInv(addr: Addresses, net: Net, e: Event)
    requires addr(A) != addr(B) && NetInv(addr, net)
    ensures NetInv(addr, Step(addr, net, e))
  {
    var w := Winner(addr);
    if w !in Step(addr, net, e).failed {
      if e.Fail? {
        OtherSideKeepsInv(net.a, w, net.closed, net.closed + {e.conn});
        OtherSideKeepsInv(net.b, w, net.closed, net.closed + {e.conn});
      } else {
        NodeStepKeepsInv(addr, net.At(e.side), net.closed, e);
        var (_, closed2) := NodeStep(addr, net.At(e.side), net.closed, e);
        OtherSideKeepsInv(net.At(e.side.Other()), w, net.closed, closed2);
      }
    }
  }

  lemma {:induction false} RunKeepsInv(addr: Addresses, entryA: bool, entryB: bool, events: seq<Event>)
    requires addr(A) != addr(B)
    ensures NetInv(addr, Run(addr, Start(entryA, entryB), events))
  {
    if events != [] {
      RunKeepsInv(addr, entryA, entryB, events[..|events| - 1]);
      StepKeepsInv(addr, Run(addr, Start(entryA, entryB), events[..|events| - 1]), events[|events| - 1]);
    }
  }

  /** In every interleaving in which the network itself does not break the connection dialed by the peer with
      the greater address: it is never closed; on each side it is in the slot from the moment it is added; and
      once both connections are added and settled on a side, the other connection is closed. */
  lemma TieBreakConverges(addr: Addresses, entryA: bool, entryB: bool, events: seq<Event>, s: Side)
    requires addr(A) != addr(B)
    requires Winner(addr) !in Run(addr, Start(entryA, entryB), events).failed
    ensures var net, w := Run(addr, Start(entryA, entryB), events), Winner(addr);
            && w !in net.closed
            && (net.At(s).Added(w) ==> net.At(s).slot == Some(w))
            && (net.At(s).At(w) == Receiving && net.At(s).Added(w.Other()) ==> w.Other() in net.closed)
  {
    RunKeepsInv(addr, entryA, entryB, events);
  }

  // ----- settling

  function Progress(p: Pc): nat {
    match p
    case Idle => 0
    case Replacing => 1
    case TieBreak => 2
    case ClosingOld(_) => 3
    case Receiving => 4
    case Deleting => 5
    case Gone => 6
  }

  function Measure(net: Net): nat {
    Progress(net.a.a) + Progress(net.a.b) + Progress(net.b.a) + Progress(net.b.b)
  }

  lemma NodeAdvances(addr: Addresses, n: Node, closed: set<Side>, e: Event)
    requires !e.Fail?
    ensures var (n2, closed2) := NodeStep(addr, n, closed, e);
            (n2 == n && closed2 == closed) || Progress(n2.a) + Progress(n2.b) > Progress(n.a) + Progress(n.b)
  {
  }

  lemma StepsAdvance(addr: Addresses, net: Net, e: Event)
    ensures var after := Step(addr, net, e);
            Measure(after) >= Measure(net) && (!e.Fail? && after != net ==> Measure(after) > Measure(net))
  {
    if !e.Fail? {
      NodeAdvances(addr, net.At(e.side), net.closed, e);
    }
  }

  /** How many events of a run, failures aside, did something. */
  function Busy(addr: Addresses, net: Net, events: seq<Event>): nat {
    if events == [] then 0
    else
      var init, last := events[..|events| - 1], events[|events| - 1];
      var mid := Run(addr, net, init);
      Busy(addr, net, init) + if !last.Fail? && Step(addr, mid, last) != mid then 1 else 0
  }

  /** Every event that does something brings a call forward, so in no run more than 24 do. */
  lemma {:induction false} RunsSettle(addr: Addresses, net: Net, events: seq<Event>)
    ensures Busy(addr, net, events) + Measure(net) <= Measure(Run(addr, net, events)) <= 24
  {
    if events != [] {
      var init := events[..|events| - 1];
      RunsSettle(addr, net, init);
      StepsAdvance(addr, Run(addr, net, init), events[|events| - 1]);
    }
  }

  /** No step is due any more. */
  ghost predicate Settled(addr: Addresses, net: Net) {
    forall e: Event :: !e.Fail? && !e.GetOrCreate? ==> Step(addr, net, e) == net
  }

  /** Once adding both connections has begun on a side and no step is due there any more, it uses the connection dialed by the
      greater address, which is open; the other one is closed and deleted. */
  lemma SettledOnWinner(addr: Addresses, entryA: bool, entryB: bool, events: seq<Event>, s: Side)
    requires addr(A) != addr(B)
    requires var net := Run(addr, Start(entryA, entryB), events);
             && Winner(addr) !in net.failed && Settled(addr, net)
             && !net.At(s).At(A).Idle? && !net.At(s).At(B).Idle?
    ensures var net, w := Run(addr, Start(entryA, entryB), events), Winner(addr);
            && net.At(s).slot == Some(w) && net.At(s).At(w) == Receiving && w !in net.closed
            && net.At(s).At(w.Other()) == Gone && w.Other() in net.closed
  {
    RunKeepsInv(addr, entryA, entryB, events);
    var net, w := Run(addr, Start(entryA, entryB), events), Winner(addr);
    assert Step(addr, net, CompareAndSwap(s, w)) == net && Step(addr, net, CompareAndSwap(s, w.Other())) == net;
    assert Step(addr, net, Resolve(s, w)) == net && Step(addr, net, Resolve(s, w.Other())) == net;
    assert Step(addr, net, CloseOld(s, w)) == net;
    assert Step(addr, net, RecvEnds(s, w.Other())) == net;
    assert Step(addr, net, Delete(s, w.Other())) == net;
  }

  /** Adding a connection that was not added before begins at once. */
  lemma AddingBegins(addr: Addresses, net: Net, s: Side, c: Side)
    ensures !Step(addr, net, GetOrCreate(s, c)).At(s).At(c).Idle?
  {
  }

  /** A single connection is used as soon as no step is due, until the network breaks it. */
  lemma SettledAlone(addr: Addresses, entryA: bool, entryB: bool, events: seq<Event>, s: Side, c: Side)
    requires var net := Run(addr, Start(entryA, entryB), events);
             && Settled(addr, net) && c !in net.closed && !net.At(s).At(c).Idle?
             && forall i :: 0 <= i < |events| ==> events[i].Fail? || events[i].conn == c
    ensures var net := Run(addr, Start(entryA, entryB), events);
            net.At(s).slot == Some(c) && net.At(s).At(c) == Receiving
  {
    AloneOnRun(addr, entryA, entryB, events, s, c);
    var net := Run(addr, Start(entryA, entryB), events);
    assert Step(addr, net, CompareAndSwap(s, c)) == net && Step(addr, net, Resolve(s, c)) == net;
  }

  ghost predicate Alone(n: Node, c: Side, closed: set<Side>) {
    && n.At(c.Other()).Idle? && (n.slot.None? || n.slot == Some(c))
    && (n.At(c).Replacing? ==> n.slot.None?) && !n.At(c).TieBreak? && !n.At(c).ClosingOld?
    && (n.At(c).Receiving? ==> n.slot == Some(c)) && (n.At(c).Idle? ==> n.slot.None?)
    && (n.At(c).Deleting? || n.At(c).Gone? ==> c in closed)
  }

  lemma AloneStep(addr: Addresses, n: Node, c: Side, closed: set<Side>, e: Event)
    requires Alone(n, c, closed) && !e.Fail? && e.conn == c
    ensures var (n2, closed2) := NodeStep(addr, n, closed, e); Alone(n2, c, closed2) && closed <= closed2
  {
  }

  lemma {:induction false} AloneOnRun(addr: Addresses, entryA: bool, entryB: bool, events: seq<Event>, s: Side, c: Side)
    requires forall i :: 0 <= i < |events| ==> events[i].Fail? || events[i].conn == c
    ensures var net := Run(addr, Start(entryA, entryB), events); Alone(net.a, c, net.closed) && Alone(net.b, c, net.closed)
  {
    if events != [] {
      var net, e := Run(addr, Start(entryA, entryB), events[..|events| - 1]), events[|events| - 1];
      AloneOnRun(addr, entryA, entryB, events[..|events| - 1], s, c);
      if !e.Fail? {
        AloneStep(addr, net.At(e.side), c, net.closed, e);
      }
    }
  }

  // ----- the entry as the object the source updates

  class FullEndpoint {
    var endpoint: Option<Side>

    constructor (e: Side)
      ensures endpoint == Some(e)
    {
      endpoint := Some(e);
    }

    method CompareAndSwap(expected: Option<Side>, value: Option<Side>) returns (swapped: bool)
      modifies this
      ensures swapped == (old(endpoint) == expected) && endpoint == if swapped then value else old(endpoint)
    {
      swapped := endpoint == expected;
      if swapped {
        endpoint := value;
      }
    }

    /** replace without interference is the three steps that are due one after the other. */
    method Replace(addr: Addresses, self: Side, newValue: Side, closed: set<Side>) returns (updated: Option<Side>, gone: bool, after: set<Side>)
      modifies this
      ensures var n0 := Node(true, old(endpoint), Idle, Idle).Set(newValue, Replacing);
              var (n1, c1) := NodeStep(addr, n0, closed, Event.CompareAndSwap(self, newValue));
              var (n2, c2) := NodeStep(addr, n1, c1, Resolve(self, newValue));
              var (n3, c3) := NodeStep(addr, n2, c2, CloseOld(self, newValue));
              && endpoint == n3.slot == updated && after == c3
              && n3.At(newValue) == if gone then Gone else Receiving
    {
      var wasNil := CompareAndSwap(None, Some(newValue));
      if wasNil {
        return Some(newValue), false, closed;
      }
      var dialer := newValue == self;
      if dialer == Less(addr(self), addr(self.Other())) {
        return endpoint, true, closed + {newValue};
      }
      var previous := endpoint;
      endpoint := Some(newValue);
      after := if previous.Some? then closed + {previous.value} else closed;
      updated, gone := Some(newValue), false;
    }

    /** delete removes the endpoint only if it was not replaced. */
    method Delete(expectedOldValue: Side)
      modifies this
      ensures endpoint == if old(endpoint) == Some(expectedOldValue) then None else old(endpoint)
    {
      var deleted := CompareAndSwap(Some(expectedOldValue), None);
    }
  }
}

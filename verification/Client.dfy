/** Many channels in one database: every run of creations and persisted operations keeps each channel, and
    the table of peers, what restoring needs (channel/persistence/keyvalue, channel/persistence/statemachine.go). */
module Clients {
  import opened Base
  import opened Allocations
  import opened States
  import opened Machines
  import opened StateMachines
  import opened Wire
  import opened KeyLayout
  import opened Keys
  import opened Store
  import opened Persistence
  import opened Restore
  import opened KeyValue
  import opened PeerRestore

  // ----- the peer table

  /** The table has an entry for a peer and a channel exactly if the channel is one of these and lists the peer. */
  ghost predicate PeerTable(table: Data, peersOf: map<ID, seq<Address>>) {
    forall addr: Address, id: ID :: |addr| == ADDRESS_LEN ==>
      (PeerKey(addr, id) in table <==> id in peersOf && addr in peersOf[id])
  }

  lemma PeerKeyInjective(a: Address, x: ID, b: Address, y: ID)
    requires |a| == |b| && PeerKey(a, x) == PeerKey(b, y)
    ensures a == b && x == y
  {
    var n, infix := |a|, Ascii(":channel:");
    assert PeerKey(a, x)[..n] == a && PeerKey(b, y)[..n] == b;
    assert PeerKey(a, x)[n + |infix|..] == x && PeerKey(b, y)[n + |infix|..] == y;
  }

  lemma {:induction false} PutsReplayKeys(table: Data, log: seq<Write>, k: bytes)
    requires OnlyPuts(log)
    ensures k in Replay(table, log) <==> k in table || exists i :: 0 <= i < |log| && log[i].key == k
  {
    if log != [] {
      var init := log[..|log| - 1];
      PutsReplayKeys(table, init, k);
      if i :| 0 <= i < |log| && log[i].key == k {
        assert i < |init| ==> init[i] == log[i];
      }
      if i :| 0 <= i < |init| && init[i].key == k {
        assert log[i].key == k;
      }
    }
  }

  /** Creating a channel adds its peers and nothing else. */
  lemma PeerTableCreated(table: Data, peersOf: map<ID, seq<Address>>, peers: seq<Address>, id: ID)
    requires PeerTable(table, peersOf) && id !in peersOf && WireAddresses(peers)
    ensures PeerTable(Replay(table, PeerPuts(peers, id)), peersOf[id := peers])
  {
    var log := PeerPuts(peers, id);
    forall addr: Address, x: ID | |addr| == ADDRESS_LEN
      ensures PeerKey(addr, x) in Replay(table, log) <==> x in peersOf[id := peers] && addr in peersOf[id := peers][x]
    {
      PutsReplayKeys(table, log, PeerKey(addr, x));
      if i :| 0 <= i < |log| && log[i].key == PeerKey(addr, x) {
        PeerKeyInjective(peers[i], id, addr, x);
      }
      if x == id && addr in peers {
        var i :| 0 <= i < |peers| && peers[i] == addr;
        assert log[i].key == PeerKey(addr, x);
      }
    }
  }

  // ----- all channels of a client

  /** Every key of the channel table starts with one of these IDs. */
  ghost predicate OnlyIDs(channels: Data, ids: set<ID>) {
    forall k :: k in channels ==> exists id :: id in ids && id <= k
  }

  lemma OnePrefix(x: ID, y: ID, k: bytes)
    requires |x| == |y| && x <= k
    ensures y <= k ==> x == y
  {
    assert k[..|x|] == x;
  }

  lemma UnusedID(channels: Data, ids: set<ID>, id: ID)
    requires OnlyIDs(channels, ids) && id !in ids && forall x :: x in ids ==> |x| == |id|
    ensures WithPrefix(channels, id) == {}
  {
    forall k | k in channels
      ensures !(id <= k)
    {
      var x :| x in ids && x <= k;
      OnePrefix(x, id, k);
    }
  }

  lemma OnlyIDsWithin(a: Data, b: Data, ids: set<ID>, id: ID)
    requires OnlyIDs(a, ids) && Within(a, b, id)
    ensures OnlyIDs(b, ids + {id})
  {
    forall k | k in b
      ensures exists x :: x in ids + {id} && x <= k
    {
      if id <= k {
        assert id in ids + {id};
      } else {
        var x :| x in ids && x <= k;
        assert x in ids + {id};
      }
    }
  }

  /** The two tables of the database next to the channels that were persisted in it. */
  datatype Tables = Tables(stored: map<ID, Stored>, channels: Data, peers: Data)

  /** One channel is new; the others are the same next to the new channel table. */
  function Written(stored: map<ID, Stored>, id: ID, after: Stored): (r: map<ID, Stored>)
    ensures r.Keys == stored.Keys + {id} && r[id] == after
    ensures forall x :: x in stored && x != id ==> r[x] == stored[x].(data := after.data)
  {
    (map x | x in stored :: stored[x].(data := after.data))[id := after]
  }

  function PeersIn(stored: map<ID, Stored>): map<ID, seq<Address>> {
    map id | id in stored :: stored[id].src.peers
  }

  ghost predicate ChannelInv(bk: Backend, s: Stored, id: ID, channels: Data) {
    s.src.m.params.id == id && |id| == ID_LEN && s.data == channels && StoredInv(bk, s)
  }

  /** The channel table holds each channel and nothing else. */
  ghost predicate AllChannels(bk: Backend, stored: map<ID, Stored>, channels: Data) {
    && (forall id :: id in stored ==> ChannelInv(bk, stored[id], id, channels))
    && OnlyIDs(channels, stored.Keys)
  }

  /** And the peer table their entries for their peers and nothing else. */
  ghost predicate TablesInv(bk: Backend, t: Tables) {
    AllChannels(bk, t.stored, t.channels) && PeerTable(t.peers, PeersIn(t.stored))
  }

  /** A write below one channel's ID keeps every other channel. */
  lemma OthersKept(bk: Backend, s: Stored, x: ID, channels: Data, id: ID)
    requires ChannelInv(bk, s, x, s.data) && Within(s.data, channels, id) && |id| == ID_LEN && x != id
    ensures ChannelInv(bk, s.(data := channels), x, channels)
  {
    OtherChannelsUntouched(s.data, channels, id, x);
    ForeignStepKeepsInv(bk, s, channels);
  }

  /** The channel table after one channel, old or new, was written. */
  lemma WrittenKeepsChannels(bk: Backend, stored: map<ID, Stored>, channels: Data, id: ID, after: Stored)
    requires AllChannels(bk, stored, channels)
    requires ChannelInv(bk, after, id, after.data) && Within(channels, after.data, id)
    ensures AllChannels(bk, Written(stored, id, after), after.data)
  {
    var r := Written(stored, id, after);
    forall x | x in r
      ensures ChannelInv(bk, r[x], x, after.data)
    {
      if x != id {
        assert ChannelInv(bk, stored[x], x, channels);
        OthersKept(bk, stored[x], x, after.data, id);
      }
    }
    OnlyIDsWithin(channels, after.data, stored.Keys, id);
  }

  lemma PeersWritten(stored: map<ID, Stored>, id: ID, after: Stored)
    ensures PeersIn(Written(stored, id, after)) == PeersIn(stored)[id := after.src.peers]
    ensures id in stored && stored[id].src.peers == after.src.peers ==> PeersIn(Written(stored, id, after)) == PeersIn(stored)
  {
    var r := Written(stored, id, after);
    forall x | x in r
      ensures PeersIn(r)[x] == PeersIn(stored)[id := after.src.peers][x]
    {
    }
  }

  lemma OperatedKeepsInv(bk: Backend, t: Tables, id: ID, after: Stored)
    requires TablesInv(bk, t) && id in t.stored && ChannelInv(bk, after, id, after.data)
    requires Within(t.channels, after.data, id) && after.src.peers == t.stored[id].src.peers
    ensures TablesInv(bk, Tables(Written(t.stored, id, after), after.data, t.peers))
  {
    WrittenKeepsChannels(bk, t.stored, t.channels, id, after);
    PeersWritten(t.stored, id, after);
  }

  lemma OpenedKeepsInv(bk: Backend, t: Tables, id: ID, after: Stored)
    requires TablesInv(bk, t) && id !in t.stored && ChannelInv(bk, after, id, after.data)
    requires Within(t.channels, after.data, id) && WireAddresses(after.src.peers)
    ensures TablesInv(bk, Tables(Written(t.stored, id, after), after.data, Replay(t.peers, PeerPuts(after.src.peers, id))))
  {
    WrittenKeepsChannels(bk, t.stored, t.channels, id, after);
    PeerTableCreated(t.peers, PeersIn(t.stored), after.src.peers, id);
    PeersWritten(t.stored, id, after);
  }

  // ----- runs

  datatype Event = Opens(src: Source) | Operates(id: ID, op: Op)

  /** Creating a channel under a new ID, or an operation of one that was created; anything else does nothing. */
  ghost function ClientStep(env: Env, bk: Backend, t: Tables, e: Event): Tables {
    match e
    case Opens(src) =>
      var id, after := src.m.params.id, Begin(t.channels, src);
      if id in t.stored || !WireSource(bk, src) then t
      else Tables(Written(t.stored, id, after), after.data, Replay(t.peers, PeerPuts(src.peers, id)))
    case Operates(id, op) =>
      if id !in t.stored || !WireOp(bk, t.stored[id].src.m.params, op) then t
      else
        var after := Restore.Step(env, t.stored[id], Own(op));
        Tables(Written(t.stored, id, after), after.data, t.peers)
  }

  ghost function ClientRun(env: Env, bk: Backend, events: seq<Event>): Tables {
    if events == [] then Tables(map[], map[], map[])
    else ClientStep(env, bk, ClientRun(env, bk, events[..|events| - 1]), events[|events| - 1])
  }

  lemma UnusedHere(bk: Backend, t: Tables, src: Source)
    requires TablesInv(bk, t) && WireSource(bk, src) && src.m.params.id !in t.stored
    ensures WithPrefix(t.channels, src.m.params.id) == {}
  {
    forall x | x in t.stored.Keys
      ensures |x| == ID_LEN
    {
      assert ChannelInv(bk, t.stored[x], x, t.channels);
    }
    UnusedID(t.channels, t.stored.Keys, src.m.params.id);
  }

  lemma OpensKeepsInv(env: Env, bk: Backend, t: Tables, src: Source)
    requires TablesInv(bk, t)
    ensures TablesInv(bk, ClientStep(env, bk, t, Opens(src)))
  {
    var id := src.m.params.id;
    if id !in t.stored && WireSource(bk, src) {
      UnusedHere(bk, t, src);
      BeginInv(bk, t.channels, src);
      BeginWithin(bk, t.channels, src);
      OpenedKeepsInv(bk, t, id, Begin(t.channels, src));
    }
  }

  lemma BeginWithin(bk: Backend, data: Data, src: Source)
    requires WireSource(bk, src) && WithPrefix(data, src.m.params.id) == {}
    ensures Within(data, Begin(data, src).data, src.m.params.id)
  {
    CreatedHolds(bk, data, src);
    CreatedWithin(data, src, CreatedKeys(|src.m.params.parts|));
  }

  lemma OwnStepWithin(env: Env, bk: Backend, s: Stored, op: Op)
    requires StoredInv(bk, s) && WireOp(bk, s.src.m.params, op) && FixedLengthSigner(env)
    ensures var after := Restore.Step(env, s, Own(op));
            && StoredInv(bk, after) && Within(s.data, after.data, s.src.m.params.id)
            && after.src.m.params == s.src.m.params && after.src.peers == s.src.peers
  {
    match Apply(env, s.src.m, op)
    case None =>
    case Some(m) => MovePersists(env, bk, s, op, m, CallFor(s.src.m, op));
  }

  lemma OperatesKeepsInv(env: Env, bk: Backend, t: Tables, id: ID, op: Op)
    requires TablesInv(bk, t) && FixedLengthSigner(env)
    ensures TablesInv(bk, ClientStep(env, bk, t, Operates(id, op)))
  {
    if id in t.stored && WireOp(bk, t.stored[id].src.m.params, op) {
      assert ChannelInv(bk, t.stored[id], id, t.channels);
      OwnStepWithin(env, bk, t.stored[id], op);
      OperatedKeepsInv(bk, t, id, Restore.Step(env, t.stored[id], Own(op)));
    }
  }

  lemma OperatesTo(env: Env, bk: Backend, t: Tables, id: ID, op: Op, after: Stored)
    requires TablesInv(bk, t) && FixedLengthSigner(env) && id in t.stored && WireOp(bk, t.stored[id].src.m.params, op)
    requires after == Restore.Step(env, t.stored[id], Own(op))
    ensures ClientStep(env, bk, t, Operates(id, op)) == Tables(Written(t.stored, id, after), after.data, t.peers)
    ensures TablesInv(bk, Tables(Written(t.stored, id, after), after.data, t.peers))
  {
    OperatesKeepsInv(env, bk, t, id, op);
  }

  lemma OpensTo(env: Env, bk: Backend, t: Tables, src: Source, after: Stored)
    requires TablesInv(bk, t) && src.m.params.id !in t.stored && WireSource(bk, src) && after == Begin(t.channels, src)
    ensures var id := src.m.params.id;
            var next := Tables(Written(t.stored, id, after), after.data, Replay(t.peers, PeerPuts(src.peers, id)));
            ClientStep(env, bk, t, Opens(src)) == next && TablesInv(bk, next)
  {
    OpensKeepsInv(env, bk, t, src);
  }

  /** From the empty database, every run of creations and operations of any number of channels. */
  lemma {:induction false} TablesOnEveryRun(env: Env, bk: Backend, events: seq<Event>)
    requires FixedLengthSigner(env)
    ensures TablesInv(bk, ClientRun(env, bk, events))
  {
    if events != [] {
      var init, last := events[..|events| - 1], events[|events| - 1];
      TablesOnEveryRun(env, bk, init);
      match last
      case Opens(src) => OpensKeepsInv(env, bk, ClientRun(env, bk, init), src);
      case Operates(id, op) => OperatesKeepsInv(env, bk, ClientRun(env, bk, init), id, op);
    }
  }

  /** At the end of every run, each channel is restored to its machine. */
  lemma EveryChannelRestores(env: Env, bk: Backend, events: seq<Event>, id: ID, it: Iter)
    requires FixedLengthSigner(env) && id in ClientRun(env, bk, events).stored
    requires var t := ClientRun(env, bk, events); Lists(it, t.channels, WithPrefix(t.channels, id))
    ensures RestoresTo(bk, ClientRun(env, bk, events).stored[id], it)
  {
    TablesOnEveryRun(env, bk, events);
    var t := ClientRun(env, bk, events);
    assert ChannelInv(bk, t.stored[id], id, t.channels);
    StoredRestores(bk, t.stored[id], it);
  }

  // ----- the client as an object

  /** The machine is what the record says, the table aside. */
  ghost predicate Agrees(p: PersistedMachine, s: Stored)
    reads p, p.m
  {
    s.src == Source(p.m.Model(), p.peers, p.parent) && s.slots == p.slots && s.stale == p.stale
  }

  /** A client with its open channels, all persisted in one database. */
  class Client {
    const pr: PersistRestorer
    const bk: Backend
    const env: Env
    var machines: map<ID, PersistedMachine>
    ghost var tables: Tables

    ghost predicate Wired()
      reads this`machines
    {
      && pr.decoders == WireDecoders(bk) && FixedLengthSigner(env)
      && forall id :: id in machines ==>
           machines[id].pr == pr && machines[id].bk == bk && machines[id].m.env == env && machines[id].m.params.id == id
    }

    /** The record is the database next to the machines. */
    ghost predicate Recorded()
      reads this, machines.Values, set p | p in machines.Values :: p.m, pr.db
    {
      && tables.channels == Channels(pr.db.data) && tables.peers == View(pr.db.data, PeerDB())
      && tables.stored.Keys == machines.Keys
      && forall id :: id in machines ==> Agrees(machines[id], tables.stored[id])
    }

    ghost predicate Valid()
      reads this, machines.Values, set p | p in machines.Values :: p.m, pr.db
    {
      Wired() && Recorded() && TablesInv(bk, tables)
    }

    constructor (pr: PersistRestorer, bk: Backend, env: Env)
      requires pr.decoders == WireDecoders(bk) && FixedLengthSigner(env) && pr.db.data == map[]
      ensures Valid() && this.pr == pr && this.bk == bk && this.env == env && tables == ClientRun(env, bk, [])
    {
      this.pr, this.bk, this.env, machines, tables := pr, bk, env, map[], Tables(map[], map[], map[]);
    }

    /** A recorded channel is the machine next to the channel table. */
    lemma RecordIsNow(id: ID)
      requires Wired() && Recorded() && TablesInv(bk, tables) && id in machines
      ensures machines[id].Now() == tables.stored[id] && machines[id].Valid()
    {
      assert ChannelInv(bk, tables.stored[id], id, tables.channels);
    }

    /** All other machines are as recorded. */
    ghost predicate OthersRecorded(id: ID)
      reads this, machines.Values, set p | p in machines.Values :: p.m
    {
      tables.stored.Keys + {id} == machines.Keys + {id} && forall x :: x in machines && x != id ==> Agrees(machines[x], tables.stored[x])
    }

    method Record(id: ID, ghost after: Stored, ghost peers: Data)
      requires id in machines && OthersRecorded(id) && Agrees(machines[id], after)
      requires after.data == Channels(pr.db.data) && peers == View(pr.db.data, PeerDB())
      modifies this`tables
      ensures Recorded() && tables == Tables(Written(old(tables).stored, id, after), after.data, peers)
    {
      tables := Tables(Written(tables.stored, id, after), after.data, peers);
      assert tables.stored.Keys == machines.Keys;
    }

    /** Channels with different IDs share no object. */
    lemma OthersDiffer(id: ID)
      requires Wired() && id in machines
      ensures forall x :: x in machines && x != id ==> machines[x] != machines[id] && machines[x].m != machines[id].m
    {
    }

    /** What a change to one channel's objects leaves alone. */
    twostate lemma OthersStay(id: ID)
      requires old(Wired()) && old(Recorded()) && id in machines && machines == old(machines) && tables == old(tables)
      requires forall x :: x in machines && x != id ==> unchanged(machines[x]) && unchanged(machines[x].m)
      ensures Wired() && OthersRecorded(id)
    {
      forall x | x in machines && x != id
        ensures Agrees(machines[x], tables.stored[x])
      {
        assert old(Agrees(machines[x], tables.stored[x]));
      }
    }

    method MoveOne(id: ID, op: Op, ghost was: Stored) returns (ok: bool, ghost after: Stored)
      requires Wired() && Recorded() && id in machines && machines[id].Valid() && WireOp(bk, machines[id].m.params, op)
      requires machines[id].Now() == was
      modifies machines[id], machines[id].m, pr.db
      ensures Wired() && OthersRecorded(id) && Agrees(machines[id], after)
      ensures ok == Apply(env, was.src.m, op).Some? && after == Restore.Step(env, was, Own(op))
      ensures after.data == Channels(pr.db.data) && tables.peers == View(pr.db.data, PeerDB())
    {
      OthersDiffer(id);
      ok := machines[id].Do(op);
      OthersStay(id);
      after := machines[id].Now();
    }

    method Move(id: ID, op: Op, ghost was: Stored) returns (ok: bool, ghost after: Stored)
      requires Wired() && Recorded() && id in machines && machines[id].Valid() && WireOp(bk, machines[id].m.params, op)
      requires machines[id].Now() == was
      modifies this`tables, machines[id], machines[id].m, pr.db
      ensures Wired() && Recorded()
      ensures ok == Apply(env, was.src.m, op).Some? && after == Restore.Step(env, was, Own(op))
      ensures tables == Tables(Written(old(tables).stored, id, after), after.data, old(tables).peers)
    {
      ok, after := MoveOne(id, op, was);
      Record(id, after, tables.peers);
    }

    /** An operation of one channel is that step of the client. */
    method Operate(id: ID, op: Op) returns (ok: bool)
      requires Valid() && id in machines && WireOp(bk, machines[id].m.params, op)
      modifies this`tables, machines[id], machines[id].m, pr.db
      ensures Valid() && tables == ClientStep(env, bk, old(tables), Operates(id, op))
      ensures ok == Apply(env, old(tables).stored[id].src.m, op).Some?
    {
      ghost var was, after := tables, tables.stored[id];
      RecordIsNow(id);
      ok, after := Move(id, op, was.stored[id]);
      OperatesTo(env, bk, was, id, op, after);
    }

    method AddOne(m: StateMachine, peers: seq<Address>, parent: Option<ID>) returns (p: PersistedMachine, ghost after: Stored)
      requires Wired() && Recorded() && m.params.id !in machines && m.env == env
      requires WireSource(bk, Source(m.Model(), peers, parent)) && WithPrefix(Channels(pr.db.data), m.params.id) == {}
      modifies pr.db
      ensures fresh(p) && p.m == m && p.pr == pr && p.bk == bk && Wired() && OthersRecorded(m.params.id) && Agrees(p, after)
      ensures after == Begin(tables.channels, Source(m.Model(), peers, parent)) && after.data == Channels(pr.db.data)
      ensures View(pr.db.data, PeerDB()) == Replay(tables.peers, PeerPuts(peers, m.params.id))
    {
      p := CreateChannel(m, peers, parent, pr, bk);
      after := p.Now();
    }

    method Enter(id: ID, p: PersistedMachine)
      requires Wired() && OthersRecorded(id) && p.pr == pr && p.bk == bk && p.m.env == env && p.m.params.id == id
      modifies this`machines
      ensures Wired() && OthersRecorded(id) && machines == old(machines)[id := p]
    {
      machines := machines[id := p];
    }

    method Add(m: StateMachine, peers: seq<Address>, parent: Option<ID>) returns (p: PersistedMachine, ghost after: Stored)
      requires Wired() && Recorded() && m.params.id !in machines && m.env == env
      requires WireSource(bk, Source(m.Model(), peers, parent)) && WithPrefix(Channels(pr.db.data), m.params.id) == {}
      modifies this, pr.db
      ensures fresh(p) && p.m == m && machines == old(machines)[m.params.id := p] && Wired() && Recorded()
      ensures after == Begin(old(tables).channels, Source(m.Model(), peers, parent))
      ensures tables == Tables(Written(old(tables).stored, m.params.id, after), after.data,
                               Replay(old(tables).peers, PeerPuts(peers, m.params.id)))
    {
      p, after := AddOne(m, peers, parent);
      Enter(m.params.id, p);
      Record(m.params.id, after, Replay(tables.peers, PeerPuts(peers, m.params.id)));
    }

    /** A further channel under an unused ID is that step of the client. */
    method Open(m: StateMachine, peers: seq<Address>, parent: Option<ID>) returns (p: PersistedMachine)
      requires Valid() && m.params.id !in machines && m.env == env
      requires WireSource(bk, Source(m.Model(), peers, parent))
      modifies this, pr.db
      ensures Valid() && machines == old(machines)[m.params.id := p] && fresh(p) && p.m == m
      ensures tables == ClientStep(env, bk, old(tables), Opens(Source(m.Model(), peers, parent)))
    {
      ghost var was, src := tables, Source(m.Model(), peers, parent);
      UnusedHere(bk, was, src);
      ghost var after;
      p, after := Add(m, peers, parent);
      OpensTo(env, bk, was, src, after);
    }

    /** At any time each machine is restored from the database. */
    method RestoreOne(id: ID) returns (r: Option<Restored>)
      requires Valid() && id in machines
      ensures r.Some? && Matches(r.value, machines[id].Now())
    {
      RecordIsNow(id);
      r := machines[id].Restored();
    }

    /** Reconnecting to a peer restores exactly the channels that list it, each to its machine. */
    method Reconnect(addr: Address) returns (r: seq<Restored>, ghost ids: seq<ID>)
      requires Valid() && |addr| == ADDRESS_LEN
      ensures StrictlySorted(ids) && |r| == |ids|
      ensures forall id :: id in ids <==> id in machines && addr in machines[id].peers
      ensures forall i :: 0 <= i < |ids| ==> Matches(r[i], machines[ids[i]].Now())
    {
      forall id
        ensures id in View(pr.db.data, PeerPrefix(addr)) <==> id in machines && addr in machines[id].peers
      {
        PeerEntry(pr.db.data, addr, id);
        assert PeerKey(addr, id) in tables.peers <==> id in PeersIn(tables.stored) && addr in PeersIn(tables.stored)[id];
      }
      forall id | id in machines
        ensures machines[id].Now() == tables.stored[id]
        ensures StoredInv(bk, tables.stored[id]) && tables.stored[id].src.m.params.id == id
      {
        RecordIsNow(id);
      }
      var ok;
      r, ok, ids := RestoreChannels(pr, bk, addr, tables.stored);
    }
  }
}

/** The persister on a key-value database and the machine that persists after each operation
    (channel/persistence/keyvalue/persister.go, restorer.go, channel/persistence/statemachine.go). */
module KeyValue {
  import opened Base
  import opened Allocations
  import opened States
  import opened Machines
  import opened Codec
  import opened Wire
  import opened KeyLayout
  import opened Store
  import opened Persistence
  import opened Restore
  import opened ChannelIterators
  import opened StateMachines

  /** The prefixes of the channel table and of the table of peers. */
  function ChannelDB(): bytes {
    Ascii("Chan:")
  }

  function PeerDB(): bytes {
    Ascii("Peer:")
  }

  lemma TablesIncomparable()
    ensures Incomparable(ChannelDB(), PeerDB()) && Incomparable(PeerDB(), ChannelDB())
  {
    assert ChannelDB()[0] != PeerDB()[0];
  }

  /** The table of all channels. */
  ghost function Channels(data: Data): Data {
    View(data, ChannelDB())
  }

  /** What dbPutSource adds to the batch of the channel table. */
  function Puts(m: Machine, keys: seq<bytes>): (log: seq<Write>)
    ensures |log| == |keys| && OnlyPuts(log)
  {
    seq(|keys|, i requires 0 <= i < |keys| => PutOp(FieldKey(m.params.id, keys[i]), Value(FieldValue(m, keys[i]))))
  }

  lemma {:induction false} PutsReplay(data: Data, m: Machine, keys: seq<bytes>)
    requires Writable(m, keys)
    ensures Some(Replay(data, Puts(m, keys))) == PutFields(data, m, keys)
  {
    if keys != [] {
      var init, last := keys[..|keys| - 1], keys[|keys| - 1];
      assert Writable(m, init);
      PutsReplay(data, m, init);
      var log := Puts(m, keys);
      assert log[..|log| - 1] == Puts(m, init);
      assert log[|log| - 1] == PutOp(FieldKey(m.params.id, last), Value(FieldValue(m, last)));
    }
  }

  function PutLog(m: Machine, keys: seq<bytes>): seq<Write> {
    Prefixed(ChannelDB(), Puts(m, keys))
  }

  /** The operations that put the values of the given keys below a prefix. */
  function Logged(p: bytes, keys: seq<bytes>, value: bytes -> Option<bytes>): (log: seq<Write>)
    ensures |log| == |keys|
  {
    seq(|keys|, i requires 0 <= i < |keys| => PutOp(p + keys[i], Value(value(keys[i]))))
  }

  lemma LoggedSource(m: Machine, keys: seq<bytes>, value: bytes -> Option<bytes>)
    requires forall k :: value(k) == FieldValue(m, k)
    ensures Logged(ChannelDB() + m.params.id + [COLON], keys, value) == PutLog(m, keys)
  {
    var a, b := Logged(ChannelDB() + m.params.id + [COLON], keys, value), PutLog(m, keys);
    forall i | 0 <= i < |keys|
      ensures a[i] == b[i]
    {
      Regroup4(ChannelDB(), m.params.id, [COLON], keys[i]);
      Regroup3(m.params.id, [COLON], keys[i]);
    }
  }

  lemma {:induction false} UnwritableFails(data: Data, m: Machine, keys: seq<bytes>)
    requires !Writable(m, keys)
    ensures PutFields(data, m, keys) == None
  {
    var init, last := keys[..|keys| - 1], keys[|keys| - 1];
    if Writable(m, init) {
      assert forall i :: 0 <= i < |keys| - 1 ==> keys[i] == init[i];
      assert FieldValue(m, last).None?;
    } else {
      UnwritableFails(data, m, init);
    }
  }

  // ----- creating a channel

  function RelativePuts(src: Source): seq<Write> {
    [PutOp(FieldKey(src.m.params.id, Ascii("parent")), Value(EncParent(src.parent))),
     PutOp(FieldKey(src.m.params.id, Ascii("peers")), Value(EncAddresses(src.peers)))]
  }

  lemma RelativesReplay(data: Data, log: seq<Write>, src: Source)
    ensures Replay(data, log + RelativePuts(src)) == WithRelatives(Replay(data, log), src)
  {
    var puts := RelativePuts(src);
    var all := log + puts;
    assert all[..|all| - 1] == log + puts[..1] && (log + puts[..1])[..|log|] == log;
  }

  lemma PrefixedAppend(p: bytes, a: seq<Write>, b: seq<Write>)
    ensures Prefixed(p, a + b) == Prefixed(p, a) + Prefixed(p, b)
  {
  }

  function CreatedPuts(src: Source, keys: seq<bytes>): (log: seq<Write>)
    ensures OnlyPuts(log)
  {
    Puts(src.m, keys) + RelativePuts(src)
  }

  /** The operations as they reach the database. */
  function CreatedLog(src: Source, keys: seq<bytes>): seq<Write> {
    Prefixed(ChannelDB(), CreatedPuts(src, keys))
  }

  function RelativeLog(src: Source): seq<Write> {
    Prefixed(ChannelDB(), RelativePuts(src))
  }

  lemma CreatedLogSplits(src: Source, keys: seq<bytes>)
    ensures [] + PutLog(src.m, keys) + RelativeLog(src) == CreatedLog(src, keys)
  {
    PrefixedAppend(ChannelDB(), Puts(src.m, keys), RelativePuts(src));
  }

  lemma CreatedReplay(data: Data, src: Source, keys: seq<bytes>)
    requires Writable(src.m, keys) && EncParent(src.parent).Some? && EncAddresses(src.peers).Some?
    ensures Some(Replay(data, CreatedPuts(src, keys))) == CreatedFrom(data, src, keys)
  {
    PutsReplay(data, src.m, keys);
    RelativesReplay(data, Puts(src.m, keys), src);
  }

  ghost predicate Encodable(src: Source, keys: seq<bytes>) {
    Writable(src.m, keys) && EncParent(src.parent).Some? && EncAddresses(src.peers).Some?
  }

  lemma CreatedIffEncodable(data: Data, src: Source, keys: seq<bytes>)
    ensures CreatedFrom(data, src, keys).Some? <==> Encodable(src, keys)
  {
    if Writable(src.m, keys) {
      PutFieldsSome(data, src.m, keys);
    } else {
      UnwritableFails(data, src.m, keys);
    }
  }

  /** peerChannelKey. */
  function PeerKey(peer: Address, id: ID): bytes {
    peer + Ascii(":channel:") + id
  }

  function PeerPuts(peers: seq<Address>, id: ID): (log: seq<Write>)
    ensures |log| == |peers| && OnlyPuts(log)
  {
    seq(|peers|, i requires 0 <= i < |peers| => PutOp(PeerKey(peers[i], id), []))
  }

  predicate AllEncodable(peers: seq<Address>) {
    forall i :: 0 <= i < |peers| ==> EncAddress(peers[i]).Some?
  }

  class PersistRestorer {
    const db: MemoryDb
    const decoders: Decoders

    constructor (db: MemoryDb, decoders: Decoders)
      ensures this.db == db && this.decoders == decoders
    {
      this.db, this.decoders := db, decoders;
    }

    /** The key of a channel's field in the database: channelDB(id) prefixes the field's own key. */
    function DbKey(id: ID, key: bytes): bytes {
      ChannelDB() + FieldKey(id, key)
    }

    /** Puts one field after the other below the prefix of a table; stops at a value that cannot be encoded. */
    method PutAll(batch: Batch, p: bytes, keys: seq<bytes>, value: bytes -> Option<bytes>) returns (ok: bool)
      requires batch.Valid()
      modifies batch
      ensures batch.Valid() && ok == forall i :: 0 <= i < |keys| ==> value(keys[i]).Some?
      ensures ok ==> batch.log == old(batch.log) + Logged(p, keys, value)
    {
      ghost var log := Logged(p, keys, value);
      for i := 0 to |keys|
        invariant batch.Valid() && forall j :: 0 <= j < i ==> value(keys[j]).Some?
        invariant batch.log == old(batch.log) + log[..i]
      {
        var v := value(keys[i]);
        if v.None? {
          return false;
        }
        batch.Put(p + keys[i], v.value);
        assert log[..i + 1] == log[..i] + [PutOp(p + keys[i], v.value)];
      }
      assert log[..|keys|] == log;
      ok := true;
    }

    /** dbPutSource on channelDB(id). */
    method PutSource(batch: Batch, m: Machine, keys: seq<bytes>) returns (ok: bool)
      requires batch.Valid()
      modifies batch
      ensures batch.Valid() && ok == Writable(m, keys)
      ensures ok ==> batch.log == old(batch.log) + PutLog(m, keys)
    {
      var value := (key: bytes) => FieldValue(m, key);
      LoggedSource(m, keys, value);
      ok := PutAll(batch, ChannelDB() + m.params.id + [COLON], keys, value);
    }

    /** Applies a batch of a table that only puts. */
    method ApplyPuts(batch: Batch, ghost p: bytes, ghost log: seq<Write>, ghost q: bytes)
      requires batch.db == db && batch.Valid() && OnlyPuts(log) && batch.log == Prefixed(p, log) && Incomparable(p, q)
      modifies db
      ensures View(db.data, p) == Replay(View(old(db.data), p), log)
      ensures View(db.data, q) == View(old(db.data), q)
    {
      PrefixedDeletesNothing(p, log);
      ghost var before := db.data;
      var ok := batch.Apply();
      TableReplay(before, p, log, q);
    }

    /** Staged, SigAdded, Enabled: a batch of the fields that the call names. */
    method PutCall(m: Machine, c: Call) returns (ok: bool)
      modifies db
      ensures var after := PutFields(Channels(old(db.data)), m, CallKeys(|m.params.parts|, c));
              ok == after.Some? && Channels(db.data) == if ok then after.value else Channels(old(db.data))
      ensures View(db.data, PeerDB()) == View(old(db.data), PeerDB())
    {
      if c == PhaseChanged {
        ok := PutPhase(m);
      } else {
        ok := PutKeys(m, CallKeys(|m.params.parts|, c));
      }
    }

    /** PhaseChanged writes its one field without a batch. */
    method PutPhase(m: Machine) returns (ok: bool)
      modifies db
      ensures var after := PutFields(Channels(old(db.data)), m, [Ascii("phase")]);
              ok && after.Some? && Channels(db.data) == after.value
      ensures View(db.data, PeerDB()) == View(old(db.data), PeerDB())
    {
      var key := FieldKey(m.params.id, Ascii("phase"));
      var v := EncPhase(m.phase).value;
      FieldValueAt(m, 5);
      NamedKeys(|m.params.parts|);
      assert Writable(m, [Ascii("phase")]);
      PutsReplay(Channels(db.data), m, [Ascii("phase")]);
      assert Puts(m, [Ascii("phase")]) == [] + [PutOp(key, v)];
      TablesIncomparable();
      TableWrite(db.data, ChannelDB(), PutOp(key, v));
      TablesAreIndependent(db.data, ChannelDB(), PeerDB(), PutOp(key, v));
      db.Put(ChannelDB() + key, v);
      ok := true;
    }

    method PutKeys(m: Machine, keys: seq<bytes>) returns (ok: bool)
      modifies db
      ensures var after := PutFields(Channels(old(db.data)), m, keys);
              ok == after.Some? && Channels(db.data) == if ok then after.value else Channels(old(db.data))
      ensures View(db.data, PeerDB()) == View(old(db.data), PeerDB())
    {
      var batch := new Batch(db);
      ok := PutSource(batch, m, keys);
      if !ok {
        UnwritableFails(Channels(db.data), m, keys);
        return;
      }
      ghost var log := Puts(m, keys);
      assert batch.log == Prefixed(ChannelDB(), log);
      TablesIncomparable();
      PutsReplay(Channels(db.data), m, keys);
      ApplyPuts(batch, ChannelDB(), log, PeerDB());
    }

    /** The batch of the channel table and the batch of the peer table; both are applied only once complete. */
    method ChannelCreated(src: Source) returns (ok: bool)
      modifies db
      ensures ok == (Created(Channels(old(db.data)), src).Some? && AllEncodable(src.peers))
      ensures !ok ==> db.data == old(db.data)
      ensures ok ==> Some(Channels(db.data)) == Created(Channels(old(db.data)), src)
      ensures ok ==> View(db.data, PeerDB()) == Replay(View(old(db.data), PeerDB()), PeerPuts(src.peers, src.m.params.id))
      ensures ok ==> Within(Channels(old(db.data)), Channels(db.data), src.m.params.id)
    {
      ghost var keys := CreatedKeys(|src.m.params.parts|);
      ghost var before := Channels(db.data);
      ok := CreateWith(src, CreatedKeys(|src.m.params.parts|));
      if ok {
        CreatedWithin(before, src, keys);
      }
    }

    method CreateWith(src: Source, keys: seq<bytes>) returns (ok: bool)
      modifies db
      ensures ok == (CreatedFrom(Channels(old(db.data)), src, keys).Some? && AllEncodable(src.peers))
      ensures !ok ==> db.data == old(db.data)
      ensures ok ==> Some(Channels(db.data)) == CreatedFrom(Channels(old(db.data)), src, keys)
      ensures ok ==> View(db.data, PeerDB()) == Replay(View(old(db.data), PeerDB()), PeerPuts(src.peers, src.m.params.id))
    {
      var batch := new Batch(db);
      ok := PutCreated(batch, src, keys);
      CreatedIffEncodable(Channels(db.data), src, keys);
      if !ok {
        return;
      }
      var peerBatch := new Batch(db);
      ok := PutPeers(peerBatch, src.peers, src.m.params.id);
      if !ok {
        return;
      }
      ApplyCreated(batch, peerBatch, src, keys);
    }

    /** All fields of the channel. */
    method PutCreated(batch: Batch, src: Source, keys: seq<bytes>) returns (ok: bool)
      requires batch.Valid() && batch.log == []
      modifies batch
      ensures batch.Valid() && ok == Encodable(src, keys)
      ensures ok ==> batch.log == CreatedLog(src, keys)
    {
      ok := PutSource(batch, src.m, keys);
      if !ok {
        return;
      }
      CreatedLogSplits(src, keys);
      ok := PutRelatives(batch, src);
    }

    /** The parent and the peers of the channel. */
    method PutRelatives(batch: Batch, src: Source) returns (ok: bool)
      requires batch.Valid()
      modifies batch
      ensures batch.Valid() && ok == (EncParent(src.parent).Some? && EncAddresses(src.peers).Some?)
      ensures ok ==> batch.log == old(batch.log) + RelativeLog(src)
    {
      var parent, peers := EncParent(src.parent), EncAddresses(src.peers);
      if parent.None? || peers.None? {
        return false;
      }
      batch.Put(DbKey(src.m.params.id, Ascii("parent")), parent.value);
      batch.Put(DbKey(src.m.params.id, Ascii("peers")), peers.value);
      ok := true;
    }

    /** One entry per peer. */
    method PutPeers(batch: Batch, peers: seq<Address>, id: ID) returns (ok: bool)
      requires batch.Valid() && batch.log == []
      modifies batch
      ensures batch.Valid() && ok == AllEncodable(peers)
      ensures ok ==> batch.log == Prefixed(PeerDB(), PeerPuts(peers, id))
    {
      ghost var full := Prefixed(PeerDB(), PeerPuts(peers, id));
      for i := 0 to |peers|
        invariant batch.Valid() && AllEncodable(peers[..i]) && batch.log == full[..i]
      {
        if EncAddress(peers[i]).None? {
          return false;
        }
        batch.Put(PeerDB() + PeerKey(peers[i], id), []);
        assert full[i] == PutOp(PeerDB() + PeerKey(peers[i], id), []);
        assert full[..i + 1] == full[..i] + [full[i]];
      }
      assert peers[..|peers|] == peers && full[..|full|] == full;
      ok := true;
    }

    method ApplyCreated(batch: Batch, peerBatch: Batch, src: Source, ghost keys: seq<bytes>)
      requires batch.db == db && peerBatch.db == db && batch.Valid() && peerBatch.Valid()
      requires Encodable(src, keys)
      requires batch.log == CreatedLog(src, keys)
      requires peerBatch.log == Prefixed(PeerDB(), PeerPuts(src.peers, src.m.params.id))
      modifies db
      ensures Some(Channels(db.data)) == CreatedFrom(Channels(old(db.data)), src, keys)
      ensures View(db.data, PeerDB()) == Replay(View(old(db.data), PeerDB()), PeerPuts(src.peers, src.m.params.id))
    {
      ghost var log, peerLog := CreatedPuts(src, keys), PeerPuts(src.peers, src.m.params.id);
      TablesIncomparable();
      CreatedReplay(Channels(db.data), src, keys);
      ApplyPuts(batch, ChannelDB(), log, PeerDB());
      ApplyPuts(peerBatch, PeerDB(), peerLog, ChannelDB());
    }

    /** The channel at the front of an iterator. */
    method FirstChannel(it: Iter) returns (r: Option<Restored>)
      requires it.next == 0
      ensures r == DecodeChannel(decoders, it.values)
    {
      var channels := new ChannelIterator(decoders, [it]);
      if HasNext(it) {
        assert Skip([it]) == [it] && Left([it]) == it.values;
        if |it.values| >= 6 && DecodeHead(decoders, it.values).Some? {
          SingleDecodes(decoders, it, DecodeHead(decoders, it.values).value);
        }
      } else {
        assert [it][1..] == [] && Skip([it]) == [];
      }
      var next := channels.Next();
      r := if next == More && !channels.err then Some(channels.ch) else None;
    }

    /** Reads the values under the channel's ID in key order and decodes them by their position. */
    method RestoreChannel(id: ID) returns (r: Option<Restored>)
      ensures forall it :: Lists(it, Channels(db.data), WithPrefix(Channels(db.data), id)) ==>
                             r == DecodeChannel(decoders, it.values)
    {
      var table := new Table(db, ChannelDB());
      var its := table.NewIteratorWithPrefix(id);
      r := FirstChannel(its);
      forall it | Lists(it, Channels(db.data), WithPrefix(Channels(db.data), id))
        ensures it == its
      {
        ListsOnce(it, its, Channels(db.data), WithPrefix(Channels(db.data), id));
      }
    }
  }

  lemma MovePersists(env: Env, bk: Backend, s: Stored, op: Op, m: Machine, c: Call)
    requires StoredInv(bk, s) && WireOp(bk, s.src.m.params, op) && FixedLengthSigner(env)
    requires Apply(env, s.src.m, op) == Some(m) && c == CallFor(s.src.m, op)
    ensures var after := PutFields(s.data, m, CallKeys(|m.params.parts|, c));
            && after.Some? && StoredInv(bk, AfterCall(s, m, c)) && AfterCall(s, m, c).data == after.value
            && Within(s.data, after.value, m.params.id) && m.params == s.src.m.params
  {
    OperationMoves(env, bk, s, op, m, c);
    CallKeepsInv(bk, s, m, c);
    PutFieldsWithin(s.data, m, CallKeys(|m.params.parts|, c));
  }

  /** The state machine that persists after each operation. */
  class PersistedMachine {
    const m: StateMachine
    const pr: PersistRestorer
    const bk: Backend
    ghost var peers: seq<Address>
    ghost var parent: Option<ID>
    ghost var slots: seq<bytes>
    ghost var stale: set<nat>

    /** The machine next to the channel table as it is now. */
    ghost function Now(): Stored
      reads this, m, pr.db
    {
      Stored(Source(m.Model(), peers, parent), Channels(pr.db.data), slots, stale)
    }

    ghost predicate Valid()
      reads this, m, pr.db
    {
      pr.decoders == WireDecoders(bk) && FixedLengthSigner(m.env) && StoredInv(bk, Now())
    }

    /** The machine did the operation and the store followed; no other channel and no peer entry changed. */
    twostate predicate Does(op: Op, ok: bool)
      reads this, m, pr.db
    {
      && ok == Apply(m.env, old(Now()).src.m, op).Some? && Now() == Restore.Step(m.env, old(Now()), Own(op))
      && peers == old(peers) && Within(Channels(old(pr.db.data)), Channels(pr.db.data), m.params.id)
      && View(pr.db.data, PeerDB()) == View(old(pr.db.data), PeerDB())
    }

    constructor (m: StateMachine, pr: PersistRestorer, bk: Backend, ghost start: Stored)
      requires pr.decoders == WireDecoders(bk) && FixedLengthSigner(m.env)
      requires StoredInv(bk, start) && start.src.m == m.Model() && start.data == Channels(pr.db.data)
      ensures Valid() && this.m == m && this.pr == pr && this.bk == bk && Now() == start
    {
      this.m, this.pr, this.bk := m, pr, bk;
      peers, parent, slots, stale := start.src.peers, start.src.parent, start.slots, start.stale;
    }

    /** The persister call after an operation that moved the machine. */
    method Persist(c: Call, ghost op: Op, ghost before: Stored) returns (ok: bool)
      requires pr.decoders == WireDecoders(bk) && FixedLengthSigner(m.env) && StoredInv(bk, before)
      requires before == Stored(Source(before.src.m, peers, parent), Channels(pr.db.data), slots, stale)
      requires Apply(m.env, before.src.m, op) == Some(m.Model()) && c == CallFor(before.src.m, op)
      requires WireOp(bk, m.params, op)
      modifies this, pr.db
      ensures ok && Valid() && Now() == AfterCall(before, m.Model(), c) && peers == old(peers)
      ensures Within(Channels(old(pr.db.data)), Channels(pr.db.data), m.params.id)
      ensures View(pr.db.data, PeerDB()) == View(old(pr.db.data), PeerDB())
    {
      ghost var next := AfterCall(before, m.Model(), c);
      MovePersists(m.env, bk, before, op, m.Model(), c);
      ok := pr.PutCall(m.Model(), c);
      assert ok && Channels(pr.db.data) == next.data;
      slots, stale := SlotsAfter(slots, m.Model(), c), StaleAfter(stale, before.src.m, c);
      assert Now() == next;
    }

    method SetFunded() returns (ok: bool)
      requires Valid()
      modifies this, m, pr.db
      ensures Valid() && Does(Op.SetFunded, ok)
    {
      ghost var before := Now();
      ok := m.SetFunded();
      if ok { ok := Persist(PhaseChanged, Op.SetFunded, before); }
    }

    method SetRegistering() returns (ok: bool)
      requires Valid()
      modifies this, m, pr.db
      ensures Valid() && Does(Op.SetRegistering, ok)
    {
      ghost var before := Now();
      ok := m.SetRegistering();
      if ok { ok := Persist(PhaseChanged, Op.SetRegistering, before); }
    }

    method SetRegistered() returns (ok: bool)
      requires Valid()
      modifies this, m, pr.db
      ensures Valid() && Does(Op.SetRegistered, ok)
    {
      ghost var before := Now();
      ok := m.SetRegistered();
      if ok { ok := Persist(PhaseChanged, Op.SetRegistered, before); }
    }

    method SetProgressing(s: State) returns (ok: bool)
      requires Valid() && WireOp(bk, m.params, Op.SetProgressing(s))
      modifies this, m, pr.db
      ensures Valid() && Does(Op.SetProgressing(s), ok)
    {
      ghost var before := Now();
      ok := m.SetProgressing(s);
      if ok { ok := Persist(Staged, Op.SetProgressing(s), before); }
    }

    method SetProgressed(s: State) returns (ok: bool)
      requires Valid() && WireOp(bk, m.params, Op.SetProgressed(s))
      modifies this, m, pr.db
      ensures Valid() && Does(Op.SetProgressed(s), ok)
    {
      ghost var before := Now();
      ok := m.SetProgressed(s);
      if ok { ok := Persist(Enabled, Op.SetProgressed(s), before); }
    }

    method SetWithdrawing() returns (ok: bool)
      requires Valid()
      modifies this, m, pr.db
      ensures Valid() && Does(Op.SetWithdrawing, ok)
    {
      ghost var before := Now();
      ok := m.SetWithdrawing();
      if ok { ok := Persist(PhaseChanged, Op.SetWithdrawing, before); }
    }

    method Init(alloc: Allocation, data: bytes) returns (ok: bool)
      requires Valid() && WireOp(bk, m.params, Op.Init(alloc, data))
      modifies this, m, pr.db
      ensures Valid() && Does(Op.Init(alloc, data), ok)
    {
      ghost var before := Now();
      ok := m.Init(alloc, data);
      if ok { ok := Persist(Staged, Op.Init(alloc, data), before); }
    }

    method Update(s: State, actor: Index) returns (ok: bool)
      requires Valid() && WireOp(bk, m.params, Op.Update(s, actor))
      modifies this, m, pr.db
      ensures Valid() && Does(Op.Update(s, actor), ok)
    {
      ghost var before := Now();
      ok := m.Update(s, actor);
      if ok { ok := Persist(Staged, Op.Update(s, actor), before); }
    }

    method ForceUpdate(s: State) returns (ok: bool)
      requires Valid() && WireOp(bk, m.params, Op.ForceUpdate(s))
      modifies this, m, pr.db
      ensures Valid() && Does(Op.ForceUpdate(s), ok)
    {
      ghost var before := Now();
      ok := m.ForceUpdate(s);
      if ok { ok := Persist(Staged, Op.ForceUpdate(s), before); }
    }

    method Sig() returns (sig: Option<Sig>)
      requires Valid()
      modifies this, m, pr.db
      ensures Valid() && Does(Op.Sign, sig.Some?)
      ensures sig.Some? ==> m.idx < |m.stagingTX.sigs| && m.stagingTX.sigs[m.idx] == sig
    {
      ghost var before := Now();
      sig := m.Sig();
      if sig.Some? {
        var ok := Persist(SigAdded(m.idx), Op.Sign, before);
      }
    }

    method AddSig(i: Index, sig: Sig) returns (ok: bool)
      requires Valid() && WireOp(bk, m.params, Op.AddSig(i, sig))
      modifies this, m, pr.db
      ensures Valid() && Does(Op.AddSig(i, sig), ok)
    {
      ghost var before := Now();
      ok := m.AddSig(i, sig);
      if ok { ok := Persist(SigAdded(i), Op.AddSig(i, sig), before); }
    }

    method EnableInit() returns (ok: bool)
      requires Valid()
      modifies this, m, pr.db
      ensures Valid() && Does(Op.EnableInit, ok)
    {
      ghost var before := Now();
      ok := m.EnableInit();
      if ok { ok := Persist(Enabled, Op.EnableInit, before); }
    }

    method EnableUpdate() returns (ok: bool)
      requires Valid()
      modifies this, m, pr.db
      ensures Valid() && Does(Op.EnableUpdate, ok)
    {
      ghost var before := Now();
      ok := m.EnableUpdate();
      if ok { ok := Persist(Enabled, Op.EnableUpdate, before); }
    }

    method EnableFinal() returns (ok: bool)
      requires Valid()
      modifies this, m, pr.db
      ensures Valid() && Does(Op.EnableFinal, ok)
    {
      ghost var before := Now();
      ok := m.EnableFinal();
      if ok { ok := Persist(Enabled, Op.EnableFinal, before); }
    }

    method DiscardUpdate() returns (ok: bool)
      requires Valid()
      modifies this, m, pr.db
      ensures Valid() && Does(Op.DiscardUpdate, ok)
    {
      ghost var before := Now();
      ok := m.DiscardUpdate();
      if ok { ok := Persist(Staged, Op.DiscardUpdate, before); }
    }

    /** Any operation but the removal of the channel. */
    method Do(op: Op) returns (ok: bool)
      requires Valid() && WireOp(bk, m.params, op)
      modifies this, m, pr.db
      ensures Valid() && Does(op, ok)
    {
      if op.Init? {
        ok := Init(op.alloc, op.data);
      } else if op.Update? {
        ok := Update(op.state, op.actor);
      } else if op.ForceUpdate? {
        ok := ForceUpdate(op.state);
      } else if op.Sign? {
        var sig := Sig();
        ok := sig.Some?;
      } else if op.AddSig? {
        ok := AddSig(op.signer, op.sig);
      } else if op.DiscardUpdate? {
        ok := DiscardUpdate();
      } else if op.EnableInit? {
        ok := EnableInit();
      } else if op.EnableUpdate? {
        ok := EnableUpdate();
      } else if op.EnableFinal? {
        ok := EnableFinal();
      } else if op.SetFunded? {
        ok := SetFunded();
      } else if op.SetRegistering? {
        ok := SetRegistering();
      } else if op.SetRegistered? {
        ok := SetRegistered();
      } else if op.SetProgressing? {
        ok := SetProgressing(op.state);
      } else if op.SetProgressed? {
        ok := SetProgressed(op.state);
      } else {
        ok := SetWithdrawing();
      }
    }

    /** At any time, restoring from the database yields this machine. */
    method Restored() returns (r: Option<Restored>)
      requires Valid()
      ensures r.Some? && Matches(r.value, Now())
    {
      r := pr.RestoreChannel(m.params.id);
      ghost var it := StoredListing(bk, Now());
      StoredRestores(bk, Now(), it);
    }
  }

  /** Persisting a new channel under an unused ID and handing out its persisting machine. */
  method CreateChannel(m: StateMachine, peers: seq<Address>, parent: Option<ID>, pr: PersistRestorer, bk: Backend)
    returns (p: PersistedMachine)
    requires pr.decoders == WireDecoders(bk) && FixedLengthSigner(m.env)
    requires WireSource(bk, Source(m.Model(), peers, parent))
    requires WithPrefix(Channels(pr.db.data), m.params.id) == {}
    modifies pr.db
    ensures fresh(p) && p.Valid() && p.m == m && p.pr == pr && p.bk == bk
    ensures View(pr.db.data, PeerDB()) == Replay(View(old(pr.db.data), PeerDB()), PeerPuts(peers, m.params.id))
    ensures Within(Channels(old(pr.db.data)), Channels(pr.db.data), m.params.id)
    ensures p.Now() == Begin(Channels(old(pr.db.data)), Source(m.Model(), peers, parent))
  {
    var src := Source(m.Model(), peers, parent);
    BeginInv(bk, Channels(pr.db.data), src);
    CreatedHolds(bk, Channels(pr.db.data), src);
    ghost var begin := Begin(Channels(pr.db.data), src);
    var ok := pr.ChannelCreated(src);
    p := new PersistedMachine(m, pr, bk, begin);
  }
}

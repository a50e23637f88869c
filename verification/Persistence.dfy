/** Persisting a machine field by field and reading it back by key order alone
    (channel/persistence/keyvalue/persister.go, restorer.go, persistedstate.go). All data is the map of the
    table "Chan:" that holds every channel's fields under its ID. */
module Persistence {
  import opened Base
  import opened Allocations
  import opened States
  import opened Machines
  import opened Codec
  import opened Wire
  import opened Keys
  import opened KeyLayout
  import opened Store
  import SparseSigs

  /** Everything that is persisted of a channel. */
  datatype Source = Source(m: Machine, peers: seq<Address>, parent: Option<ID>)

  /** The key of a channel's field in the table. */
  function FieldKey(id: ID, key: bytes): bytes {
    id + [COLON] + key
  }

  // ----- encodings of the single fields

  function EncPhase(p: Phase): Option<bytes> {
    Some([Rank(p)])
  }

  /** Phase.Decode reads any byte; only those up to 11 are phases. */
  function DecPhase(s: bytes): Decoded<byte> {
    if s == [] then Failed else Got(s[0], s[1..])
  }

  /** PersistedState: a missing state is written as nothing. */
  function EncStagedState(s: Option<State>): Option<bytes> {
    if s.None? then Some([]) else EncState(s.value)
  }

  function EncParent(parent: Option<ID>): Option<bytes> {
    match parent
    case None => EncBool(false)
    case Some(id) => Join(EncBool(true), EncID(id))
  }

  function DecParent(s: bytes): Decoded<Option<ID>> {
    var (exists_, s1) :- DecBool(s);
    if !exists_ then Got(None, s1)
    else
      var (id, s2) :- DecID(s1);
      Got(Some(id), s2)
  }

  /** A signature slot; a missing slot or signature is written as nothing. */
  function SlotValue(tx: Transaction, i: int): bytes {
    if 0 <= i < |tx.sigs| then SparseSigs.SlotBytes(tx.sigs[i]) else []
  }

  /** dbPutSourceField: what is written under a key; None for an encoding error or an unknown key. */
  function FieldValue(m: Machine, key: bytes): Option<bytes> {
    if key == Ascii("current") then EncTransaction(m.current)
    else if key == Ascii("index") then EncIndex(m.idx)
    else if key == Ascii("params") then EncParams(m.params)
    else if key == Ascii("phase") then EncPhase(m.phase)
    else if key == Ascii("staging:state") then EncStagedState(m.staging.state)
    else match SigKeyIndex(key)
      case Some(i) => Some(SlotValue(m.staging, i))
      case None => None
  }

  function Value(o: Option<bytes>): bytes {
    if o.Some? then o.value else []
  }

  /** The values of a channel in key order, with the signature slots as they are in the database. */
  function Values(src: Source, slots: seq<bytes>): (v: seq<bytes>)
    ensures |v| == |slots| + 7
  {
    [Value(EncTransaction(src.m.current)), Value(EncIndex(src.m.idx)), Value(EncParams(src.m.params)),
     Value(EncParent(src.parent)), Value(EncAddresses(src.peers)), Value(EncPhase(src.m.phase))]
    + slots + [Value(EncStagedState(src.m.staging.state))]
  }

  function KeySet(id: ID, n: nat): set<bytes> {
    set i | 0 <= i < n + 7 :: FieldKey(id, ChannelKeys(n)[i])
  }

  /** The table holds exactly this channel under its ID. */
  ghost predicate Holds(data: Data, src: Source, slots: seq<bytes>) {
    var id, n := src.m.params.id, |src.m.params.parts|;
    && |slots| == n
    && WithPrefix(data, id) == KeySet(id, n)
    && forall i :: 0 <= i < n + 7 ==>
         FieldKey(id, ChannelKeys(n)[i]) in data && data[FieldKey(id, ChannelKeys(n)[i])] == Values(src, slots)[i]
  }

  lemma FieldKeyInjective(id: ID, a: bytes, b: bytes)
    requires FieldKey(id, a) == FieldKey(id, b)
    ensures a == b
  {
    PrefixInjective(id + [COLON], a, b);
  }

  /** Distinct positions carry distinct keys. */
  lemma KeysDistinct(n: nat, i: nat, j: nat)
    requires i < n + 7 && j < n + 7 && ChannelKeys(n)[i] == ChannelKeys(n)[j]
    ensures i == j
  {
    ChannelKeysAscend(n);
    LessIrreflexive(ChannelKeys(n)[i]);
  }

  /** The value written under the key at a given position. */
  lemma FieldValueAt(m: Machine, i: nat)
    requires i < |m.params.parts| + 7 && i != 3 && i != 4
    ensures var n := |m.params.parts|;
            FieldValue(m, ChannelKeys(n)[i]) ==
            if i == 0 then EncTransaction(m.current)
            else if i == 1 then EncIndex(m.idx)
            else if i == 2 then EncParams(m.params)
            else if i == 5 then EncPhase(m.phase)
            else if i < n + 6 then Some(SlotValue(m.staging, i - 6))
            else EncStagedState(m.staging.state)
  {
    var n := |m.params.parts|;
    var keys := ChannelKeys(n);
    if keys[i] == keys[0] { KeysDistinct(n, i, 0); }
    if keys[i] == keys[1] { KeysDistinct(n, i, 1); }
    if keys[i] == keys[2] { KeysDistinct(n, i, 2); }
    if keys[i] == keys[5] { KeysDistinct(n, i, 5); }
    if keys[i] == keys[n + 6] { KeysDistinct(n, i, n + 6); }
    if 6 <= i < n + 6 {
      assert keys[i] == SigKey(i - 6, n);
      SigKeyIndexRoundTrip(i - 6, n);
    }
  }

  // ----- writing

  /** dbPutSource: the fields named by keys, one after the other. */
  function PutFields(data: Data, m: Machine, keys: seq<bytes>): Option<Data> {
    if keys == [] then Some(data)
    else
      var key := keys[|keys| - 1];
      match PutFields(data, m, keys[..|keys| - 1])
      case None => None
      case Some(d) =>
        match FieldValue(m, key)
        case None => None
        case Some(v) => Some(d[FieldKey(m.params.id, key) := v])
  }

  ghost predicate Writable(m: Machine, keys: seq<bytes>) {
    forall i :: 0 <= i < |keys| ==> FieldValue(m, keys[i]).Some?
  }

  lemma {:induction false} PutFieldsHit(data: Data, m: Machine, keys: seq<bytes>, key: bytes)
    requires Writable(m, keys) && key in keys
    ensures PutFields(data, m, keys).Some? && FieldKey(m.params.id, key) in PutFields(data, m, keys).value
    ensures Some(PutFields(data, m, keys).value[FieldKey(m.params.id, key)]) == FieldValue(m, key)
  {
    var init, last := keys[..|keys| - 1], keys[|keys| - 1];
    assert Writable(m, init) && keys == init + [last];
    PutFieldsSome(data, m, init);
    if key != last {
      PutFieldsHit(data, m, init, key);
      if FieldKey(m.params.id, key) == FieldKey(m.params.id, last) {
        FieldKeyInjective(m.params.id, key, last);
      }
    }
  }

  lemma {:induction false} PutFieldsSome(data: Data, m: Machine, keys: seq<bytes>)
    requires Writable(m, keys)
    ensures PutFields(data, m, keys).Some?
  {
    if keys != [] {
      assert Writable(m, keys[..|keys| - 1]);
      PutFieldsSome(data, m, keys[..|keys| - 1]);
    }
  }

  lemma {:induction false} PutFieldsMiss(data: Data, m: Machine, keys: seq<bytes>, k: bytes)
    requires Writable(m, keys)
    requires forall i :: 0 <= i < |keys| ==> k != FieldKey(m.params.id, keys[i])
    ensures PutFields(data, m, keys).Some?
    ensures k in PutFields(data, m, keys).value <==> k in data
    ensures k in data ==> PutFields(data, m, keys).value[k] == data[k]
  {
    if keys != [] {
      assert Writable(m, keys[..|keys| - 1]);
      PutFieldsMiss(data, m, keys[..|keys| - 1], k);
    }
  }

  /** A write of some of the channel's fields leaves the others as they were. */
  ghost predicate Rewrites(src: Source, slots: seq<bytes>, m: Machine, keys: seq<bytes>, src': Source, slots': seq<bytes>) {
    var n := |m.params.parts|;
    && src.m.params == m.params && src'.m == m && |slots| == |slots'| == n
    && Writable(m, keys)
    && (forall j :: 0 <= j < |keys| ==> keys[j] in ChannelKeys(n))
    && (forall i :: 0 <= i < n + 7 ==>
          Values(src', slots')[i] ==
          if ChannelKeys(n)[i] in keys then Value(FieldValue(m, ChannelKeys(n)[i])) else Values(src, slots)[i])
  }

  lemma HoldsAfterPut(data: Data, src: Source, slots: seq<bytes>, m: Machine, keys: seq<bytes>, src': Source, slots': seq<bytes>)
    requires Holds(data, src, slots) && Rewrites(src, slots, m, keys, src', slots')
    ensures PutFields(data, m, keys).Some? && Holds(PutFields(data, m, keys).value, src', slots')
  {
    PutFieldsSome(data, m, keys);
    var id, n, r := m.params.id, |m.params.parts|, PutFields(data, m, keys).value;
    var all := ChannelKeys(n);
    forall i | 0 <= i < n + 7
      ensures FieldKey(id, all[i]) in r && r[FieldKey(id, all[i])] == Values(src', slots')[i]
    {
      if all[i] in keys {
        PutFieldsHit(data, m, keys, all[i]);
      } else {
        forall j | 0 <= j < |keys|
          ensures FieldKey(id, all[i]) != FieldKey(id, keys[j])
        {
          if FieldKey(id, all[i]) == FieldKey(id, keys[j]) {
            FieldKeyInjective(id, all[i], keys[j]);
          }
        }
        PutFieldsMiss(data, m, keys, FieldKey(id, all[i]));
      }
    }
    forall k
      ensures k in WithPrefix(r, id) <==> k in KeySet(id, n)
    {
      NoNewKeys(data, m, keys, k);
      assert k in WithPrefix(data, id) <==> k in KeySet(id, n);
      if k in KeySet(id, n) {
        var i :| 0 <= i < n + 7 && k == FieldKey(id, all[i]);
        assert FieldKey(id, all[i]) in r;
        assert id <= k by { assert k[..|id|] == id; }
      }
    }
  }

  lemma NoNewKeys(data: Data, m: Machine, keys: seq<bytes>, k: bytes)
    requires Writable(m, keys) && PutFields(data, m, keys).Some?
    requires forall j :: 0 <= j < |keys| ==> keys[j] in ChannelKeys(|m.params.parts|)
    ensures k in PutFields(data, m, keys).value ==> k in data || k in KeySet(m.params.id, |m.params.parts|)
  {
    if forall j :: 0 <= j < |keys| ==> k != FieldKey(m.params.id, keys[j]) {
      PutFieldsMiss(data, m, keys, k);
    } else {
      var j :| 0 <= j < |keys| && k == FieldKey(m.params.id, keys[j]);
      var all := ChannelKeys(|m.params.parts|);
      var i :| 0 <= i < |all| && all[i] == keys[j];
    }
  }

  // ----- reading

  /** What a restored channel consists of. */
  datatype Restored = Restored(
    params: Params, idx: Index, phase: byte, current: Transaction,
    stagingState: Option<State>, sigs: seq<Option<Sig>>,
    peers: seq<Address>, parent: Option<ID>)

  /** decodeNext on a value that must not be empty: it has to be consumed completely. */
  function DecodeWhole<T>(dec: bytes -> Decoded<T>, v: bytes): Option<T> {
    if v == [] then None
    else match dec(v)
      case Failed => None
      case Got(x, rest) => if rest == [] then Some(x) else None
  }

  /** decodeNext on a value that may be empty. */
  function DecodeOptional<T>(dec: bytes -> Decoded<T>, v: bytes): Option<Option<T>> {
    if v == [] then Some(None)
    else match DecodeWhole(dec, v)
      case None => None
      case Some(x) => Some(Some(x))
  }

  function DecSig(s: bytes): Decoded<Sig> {
    Take(SparseSigs.SIG_LEN, s)
  }

  /** The decoders of the single fields; decodeNext is the same for all of them. */
  datatype Decoders = Decoders(
    tx: bytes -> Decoded<Transaction>, idx: bytes -> Decoded<nat>, params: bytes -> Decoded<Params>,
    parent: bytes -> Decoded<Option<ID>>, peers: bytes -> Decoded<seq<Address>>, phase: bytes -> Decoded<byte>,
    sig: bytes -> Decoded<Sig>, state: bytes -> Decoded<State>)

  function WireDecoders(bk: Backend): Decoders {
    Decoders(TransactionDecoder(bk.decData), DecIndex, (s: bytes) => DecParams(bk.calcID, s), DecParent, DecAddresses,
             DecPhase, DecSig, StateDecoder(bk.decData))
  }

  /** What decoding leaves in a signature slot. */
  function DecodedSlot(d: Decoders, v: bytes): Option<Sig> {
    if v == [] || d.sig(v).Failed? then None else Some(d.sig(v).value)
  }

  function DecodedSlots(d: Decoders, vs: seq<bytes>): (sigs: seq<Option<Sig>>)
    ensures |sigs| == |vs|
  {
    seq(|vs|, i requires 0 <= i < |vs| => DecodedSlot(d, vs[i]))
  }

  /** The error left behind by the slots: the loop over them does not stop at one, and each value that is not
      empty overwrites it. */
  predicate SlotsError(d: Decoders, vs: seq<bytes>) {
    vs != [] &&
    var last := vs[|vs| - 1];
    if last == [] then SlotsError(d, vs[..|vs| - 1]) else DecodeWhole(d.sig, last).None?
  }

  datatype Head = Head(current: Transaction, idx: Index, params: Params, parent: Option<ID>, peers: seq<Address>, phase: byte)

  function DecodeHead(d: Decoders, vs: seq<bytes>): Option<Head>
    requires |vs| >= 6
  {
    match (DecodeWhole(d.tx, vs[0]), DecodeWhole(d.idx, vs[1]), DecodeWhole(d.params, vs[2]),
           DecodeWhole(d.parent, vs[3]), DecodeWhole(d.peers, vs[4]), DecodeWhole(d.phase, vs[5]))
    case (Some(current), Some(idx), Some(params), Some(parent), Some(peers), Some(phase)) =>
      Some(Head(current, idx, params, parent, peers, phase))
    case _ => None
  }

  /** The signature slots and the staged state after the head. */
  function DecodeStaging(d: Decoders, h: Head, slots: seq<bytes>, state: bytes): Option<Restored> {
    match DecodeOptional(d.state, state)
    case None => None
    case Some(s) =>
      if state == [] && SlotsError(d, slots) then None
      else Some(Restored(h.params, h.idx, h.phase, h.current, s, DecodedSlots(d, slots), h.peers, h.parent))
  }

  function DecodeAfter(d: Decoders, h: Head, vs: seq<bytes>): Option<Restored> {
    var n := |h.params.parts|;
    if |vs| < n + 7 then None else DecodeStaging(d, h, vs[6..n + 6], vs[n + 6])
  }

  /** ChannelIterator.Next: the values at the front are decoded by their position; what follows is not looked at. */
  function DecodeChannel(d: Decoders, vs: seq<bytes>): Option<Restored> {
    if |vs| < 6 then None
    else match DecodeHead(d, vs)
      case None => None
      case Some(h) => DecodeAfter(d, h, vs)
  }

  /** A transaction of a channel with n participants that survives the wire. */
  ghost predicate WireTx(bk: Backend, tx: Transaction, n: nat) {
    WireTransaction(bk.decData, tx) && (tx.state.Some? ==> |tx.sigs| == n)
  }

  ghost predicate WireSource(bk: Backend, src: Source) {
    var m, n := src.m, |src.m.params.parts|;
    && WireParams(bk.calcID, m.params) && |m.params.id| == ID_LEN
    && m.idx < INDEX_SIZE
    && WireTx(bk, m.current, n) && WireTx(bk, m.staging, n)
    && WireAddresses(src.peers)
    && (src.parent.Some? ==> |src.parent.value| == ID_LEN)
  }

  predicate WireSlots(slots: seq<bytes>) {
    forall i :: 0 <= i < |slots| ==> slots[i] == [] || |slots[i]| == SparseSigs.SIG_LEN
  }

  function SlotSig(v: bytes): Option<Sig> {
    if v == [] then None else Some(v)
  }

  function SlotSigs(slots: seq<bytes>): seq<Option<Sig>> {
    seq(|slots|, i requires 0 <= i < |slots| => SlotSig(slots[i]))
  }

  lemma WholeRoundTrip<T>(enc: Option<bytes>, dec: bytes -> Decoded<T>, x: T)
    requires RoundTrips(enc, dec, x) && enc.value != []
    ensures DecodeWhole(dec, Value(enc)) == Some(x)
  {
    assert enc.value + [] == enc.value;
    assert dec(enc.value + []) == Got(x, []);
  }

  lemma SlotRoundTrip(d: Decoders, v: bytes)
    requires |v| == SparseSigs.SIG_LEN && d.sig(v) == DecSig(v)
    ensures DecodedSlot(d, v) == Some(v) && DecodeWhole(d.sig, v) == Some(v)
  {
    TakeRoundTrip(v, []);
    assert v + [] == v;
  }

  lemma {:induction false} SlotsRoundTrip(d: Decoders, slots: seq<bytes>)
    requires WireSlots(slots) && forall v :: d.sig(v) == DecSig(v)
    ensures DecodedSlots(d, slots) == SlotSigs(slots) && !SlotsError(d, slots)
  {
    if slots != [] {
      var init, last := slots[..|slots| - 1], slots[|slots| - 1];
      SlotsRoundTrip(d, init);
      assert slots == init + [last];
      assert DecodedSlots(d, slots) == DecodedSlots(d, init) + [DecodedSlot(d, last)];
      assert SlotSigs(slots) == SlotSigs(init) + [SlotSig(last)];
      if last != [] {
        SlotRoundTrip(d, last);
      }
    }
  }

  lemma ParentRoundTrip(parent: Option<ID>)
    requires parent.Some? ==> |parent.value| == ID_LEN
    ensures RoundTrips(EncParent(parent), DecParent, parent)
  {
    forall rest: bytes
      ensures DecParent(EncParent(parent).value + rest) == Got(parent, rest)
    {
      match parent
      case None => BoolRoundTrip(false, rest);
      case Some(id) =>
        Regroup3(EncBool(true).value, id, rest);
        BoolRoundTrip(true, id + rest);
        TakeRoundTrip(id, rest);
    }
  }

  lemma PhaseRoundTrip(p: Phase)
    ensures DecodeWhole(DecPhase, Value(EncPhase(p))) == Some(Rank(p))
  {
    assert [Rank(p)][1..] == [];
  }

  lemma CurrentRestored(decData: DecodeData, tx: Transaction)
    requires WireTransaction(decData, tx)
    ensures DecodeWhole(TransactionDecoder(decData), Value(EncTransaction(tx))) == Some(tx)
  {
    TransactionRoundTrip(decData, tx);
    WholeRoundTrip(EncTransaction(tx), TransactionDecoder(decData), tx);
  }

  lemma StagedStateRestored(decData: DecodeData, s: Option<State>)
    requires s.Some? ==> WireState(decData, s.value)
    ensures DecodeOptional(StateDecoder(decData), Value(EncStagedState(s))) == Some(s)
  {
    if s.Some? {
      StateRoundTrip(decData, s.value);
      WholeRoundTrip(EncState(s.value), StateDecoder(decData), s.value);
    }
  }

  lemma ParamsRestored(bk: Backend, p: Params)
    requires WireParams(bk.calcID, p)
    ensures DecodeWhole((s: bytes) => DecParams(bk.calcID, s), Value(EncParams(p))) == Some(p)
  {
    ParamsRoundTrip(bk.calcID, p, []);
    assert EncParams(p).value + [] == EncParams(p).value;
  }

  lemma IdentityRestored(src: Source)
    requires src.m.idx < INDEX_SIZE && WireAddresses(src.peers)
    requires src.parent.Some? ==> |src.parent.value| == ID_LEN
    ensures DecodeWhole(DecIndex, Value(EncIndex(src.m.idx))) == Some(src.m.idx)
    ensures DecodeWhole(DecAddresses, Value(EncAddresses(src.peers))) == Some(src.peers)
    ensures DecodeWhole(DecParent, Value(EncParent(src.parent))) == Some(src.parent)
  {
    IndexCodec(src.m.idx);
    WholeRoundTrip(EncIndex(src.m.idx), DecIndex, src.m.idx);
    AddressesRoundTrip(src.peers);
    WholeRoundTrip(EncAddresses(src.peers), DecAddresses, src.peers);
    ParentRoundTrip(src.parent);
    WholeRoundTrip(EncParent(src.parent), DecParent, src.parent);
  }

  /** The fields in front of the signatures are decoded to what was written. */
  ghost predicate DecodesHead(d: Decoders, src: Source) {
    && DecodeWhole(d.tx, Value(EncTransaction(src.m.current))) == Some(src.m.current)
    && DecodeWhole(d.idx, Value(EncIndex(src.m.idx))) == Some(src.m.idx)
    && DecodeWhole(d.params, Value(EncParams(src.m.params))) == Some(src.m.params)
    && DecodeWhole(d.parent, Value(EncParent(src.parent))) == Some(src.parent)
    && DecodeWhole(d.peers, Value(EncAddresses(src.peers))) == Some(src.peers)
    && DecodeWhole(d.phase, Value(EncPhase(src.m.phase))) == Some(Rank(src.m.phase))
  }

  lemma WireDecodesHead(bk: Backend, src: Source)
    requires WireSource(bk, src)
    ensures DecodesHead(WireDecoders(bk), src)
  {
    CurrentRestored(bk.decData, src.m.current);
    IdentityRestored(src);
    ParamsRestored(bk, src.m.params);
    PhaseRoundTrip(src.m.phase);
  }

  lemma HeadRestored(d: Decoders, src: Source, vs: seq<bytes>)
    requires DecodesHead(d, src) && |vs| >= 6 && vs[..6] == Values(src, [])[..6]
    ensures DecodeHead(d, vs) == Some(HeadOf(src))
  {
    assert forall i :: 0 <= i < 6 ==> vs[i] == vs[..6][i] == Values(src, [])[i];
  }

  /** What restoring a channel with these signature slots yields. */
  function RestoredFrom(src: Source, slots: seq<bytes>): Restored {
    var m := src.m;
    Restored(m.params, m.idx, Rank(m.phase), m.current, m.staging.state, SlotSigs(slots), src.peers, src.parent)
  }

  lemma StagingRestored(bk: Backend, src: Source, h: Head, slots: seq<bytes>)
    requires WireTransaction(bk.decData, src.m.staging) && WireSlots(slots)
    requires h == Head(src.m.current, src.m.idx, src.m.params, src.parent, src.peers, Rank(src.m.phase))
    ensures DecodeStaging(WireDecoders(bk), h, slots, Value(EncStagedState(src.m.staging.state))) == Some(RestoredFrom(src, slots))
  {
    SlotsRoundTrip(WireDecoders(bk), slots);
    StagedStateRestored(bk.decData, src.m.staging.state);
  }

  function HeadOf(src: Source): Head {
    Head(src.m.current, src.m.idx, src.m.params, src.parent, src.peers, Rank(src.m.phase))
  }

  lemma ValuesSplit(src: Source, slots: seq<bytes>, rest: seq<bytes>)
    ensures var vs, n := Values(src, slots) + rest, |slots|;
            && vs[..6] == Values(src, [])[..6] && vs[6..n + 6] == slots
            && vs[n + 6] == Value(EncStagedState(src.m.staging.state))
  {
  }

  lemma TailRestored(bk: Backend, src: Source, slots: seq<bytes>, rest: seq<bytes>)
    requires WireTransaction(bk.decData, src.m.staging) && WireSlots(slots) && |slots| == |src.m.params.parts|
    ensures DecodeAfter(WireDecoders(bk), HeadOf(src), Values(src, slots) + rest) == Some(RestoredFrom(src, slots))
  {
    ValuesSplit(src, slots, rest);
    StagingRestored(bk, src, HeadOf(src), slots);
  }

  /** Decoding the values by position gives back everything that was written, whatever follows. */
  lemma ValuesRoundTrip(bk: Backend, src: Source, slots: seq<bytes>, rest: seq<bytes>)
    requires WireSource(bk, src) && WireSlots(slots) && |slots| == |src.m.params.parts|
    ensures DecodeChannel(WireDecoders(bk), Values(src, slots) + rest) == Some(RestoredFrom(src, slots))
  {
    ValuesSplit(src, slots, rest);
    WireDecodesHead(bk, src);
    HeadRestored(WireDecoders(bk), src, Values(src, slots) + rest);
    TailRestored(bk, src, slots, rest);
  }

  // ----- failed slots

  predicate SlotFails(d: Decoders, v: bytes) {
    v != [] && DecodeWhole(d.sig, v).None?
  }

  predicate AnyFails(d: Decoders, slots: seq<bytes>) {
    exists j :: 0 <= j < |slots| && SlotFails(d, slots[j])
  }

  /** Slot k is the last that is not empty. */
  predicate IsLast(slots: seq<bytes>, k: nat) {
    k < |slots| && slots[k] != [] && forall j :: k < j < |slots| ==> slots[j] == []
  }

  ghost predicate LastDecodes(d: Decoders, slots: seq<bytes>) {
    exists k: nat :: IsLast(slots, k) && !SlotFails(d, slots[k])
  }

  lemma {:induction false} ErrorIsLastSlot(d: Decoders, slots: seq<bytes>, k: nat)
    requires IsLast(slots, k)
    ensures SlotsError(d, slots) <==> SlotFails(d, slots[k])
    decreases |slots|
  {
    var n := |slots| - 1;
    if k < n {
      assert IsLast(slots[..n], k);
      ErrorIsLastSlot(d, slots[..n], k);
    }
  }

  lemma {:induction false} SomeLast(slots: seq<bytes>, i: nat) returns (k: nat)
    requires i < |slots| && slots[i] != []
    ensures i <= k && IsLast(slots, k)
    decreases |slots| - i
  {
    k := i;
    if j :| i < j < |slots| && slots[j] != [] {
      k := SomeLast(slots, j);
    }
  }

  /** Exactly when a channel decodes although a signature slot failed: the staged state decodes, and it is not
      empty or the last slot that is not empty decodes. */
  lemma FailureHiddenIff(d: Decoders, h: Head, slots: seq<bytes>, state: bytes)
    requires AnyFails(d, slots)
    ensures DecodeStaging(d, h, slots, state).Some? <==>
            && DecodeOptional(d.state, state).Some?
            && (state != [] || LastDecodes(d, slots))
  {
    var i :| 0 <= i < |slots| && SlotFails(d, slots[i]);
    var k := SomeLast(slots, i);
    ErrorIsLastSlot(d, slots, k);
    forall x: nat | IsLast(slots, x)
      ensures x == k
    {
    }
  }

  lemma ChannelHidesFailureIff(d: Decoders, vs: seq<bytes>, h: Head)
    requires |vs| >= 6 && DecodeHead(d, vs) == Some(h) && |vs| >= |h.params.parts| + 7
    requires AnyFails(d, vs[6..|h.params.parts| + 6])
    ensures var n := |h.params.parts|;
            DecodeChannel(d, vs).Some? <==>
              && DecodeOptional(d.state, vs[n + 6]).Some?
              && (vs[n + 6] != [] || LastDecodes(d, vs[6..n + 6]))
  {
    var n := |h.params.parts|;
    FailureHiddenIff(d, h, vs[6..n + 6], vs[n + 6]);
  }

  /** One such family: a slot too short for a signature, with a staged state. */
  lemma ShortSlotHidden(bk: Backend, src: Source, slots: seq<bytes>, i: nat)
    requires WireSource(bk, src) && src.m.staging.state.Some? && |slots| == |src.m.params.parts|
    requires i < |slots| && 0 < |slots[i]| < SparseSigs.SIG_LEN
    ensures var r := DecodeChannel(WireDecoders(bk), Values(src, slots));
            r.Some? && r.value.stagingState == src.m.staging.state && |r.value.sigs| == |slots| && r.value.sigs[i] == None
  {
    StagingDecodes(bk, src);
    ShortSlotFails(bk, slots[i]);
    FailedSlotHidden(WireDecoders(bk), src, slots, i);
  }

  lemma FailedSlotHidden(d: Decoders, src: Source, slots: seq<bytes>, i: nat)
    requires DecodesHead(d, src) && |slots| == |src.m.params.parts| && i < |slots| && d.sig(slots[i]).Failed?
    requires var state := Value(EncStagedState(src.m.staging.state));
             state != [] && DecodeOptional(d.state, state) == Some(src.m.staging.state)
    ensures var r := DecodeChannel(d, Values(src, slots));
            r.Some? && r.value.stagingState == src.m.staging.state && |r.value.sigs| == |slots| && r.value.sigs[i] == None
  {
    ValuesSplit(src, slots, []);
    assert Values(src, slots) + [] == Values(src, slots);
    HeadRestored(d, src, Values(src, slots));
    ShortStaging(d, HeadOf(src), slots, Value(EncStagedState(src.m.staging.state)), i);
  }

  lemma ShortSlotFails(bk: Backend, v: bytes)
    requires 0 < |v| < SparseSigs.SIG_LEN
    ensures WireDecoders(bk).sig(v).Failed? && SlotFails(WireDecoders(bk), v)
  {
  }

  lemma StagingDecodes(bk: Backend, src: Source)
    requires WireSource(bk, src) && src.m.staging.state.Some?
    ensures DecodesHead(WireDecoders(bk), src)
    ensures var state := Value(EncStagedState(src.m.staging.state));
            state != [] && DecodeOptional(WireDecoders(bk).state, state) == Some(src.m.staging.state)
  {
    WireDecodesHead(bk, src);
    StagedStateRestored(bk.decData, src.m.staging.state);
    StateNotEmpty(bk, src.m.staging.state.value);
  }

  lemma StateNotEmpty(bk: Backend, s: State)
    requires WireState(bk.decData, s)
    ensures EncState(s).Some? && EncState(s).value != []
  {
    StateRoundTrip(bk.decData, s);
  }

  lemma ShortStaging(d: Decoders, h: Head, slots: seq<bytes>, state: bytes, i: nat)
    requires state != [] && DecodeOptional(d.state, state).Some? && i < |slots| && d.sig(slots[i]).Failed?
    ensures var r := DecodeStaging(d, h, slots, state);
            && r.Some? && |r.value.sigs| == |slots| && r.value.sigs[i] == None
            && DecodeOptional(d.state, state) == Some(r.value.stagingState)
  {
  }
}

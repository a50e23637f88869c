/** Restoring refines the machine: over every run of persisted operations, reading the store in key order
    gives back what the machine holds (channel/persistence/statemachine.go and keyvalue). */
module Restore {
  import opened Base
  import opened Allocations
  import opened States
  import opened Machines
  import opened Codec
  import opened Wire
  import opened Keys
  import opened KeyLayout
  import opened Store
  import opened Persistence
  import SparseSigs

  // ----- reading in key order

  function OrderedKeys(id: ID, n: nat): (keys: seq<bytes>)
    ensures |keys| == n + 7
  {
    seq(n + 7, i requires 0 <= i < n + 7 => FieldKey(id, ChannelKeys(n)[i]))
  }

  lemma OrderedKeysEnumerate(id: ID, n: nat)
    ensures Enumerates(OrderedKeys(id, n), KeySet(id, n))
  {
    var keys := OrderedKeys(id, n);
    ChannelKeysAscend(n);
    forall i, j | 0 <= i < j < |keys|
      ensures Less(keys[i], keys[j])
    {
      LessUnderPrefix(id + [COLON], ChannelKeys(n)[i], ChannelKeys(n)[j]);
    }
    forall k
      ensures k in keys <==> k in KeySet(id, n)
    {
      if k in KeySet(id, n) {
        var i :| 0 <= i < n + 7 && k == FieldKey(id, ChannelKeys(n)[i]);
        assert keys[i] == k;
      }
    }
  }

  /** A sorted iterator over the channel's prefix yields the values in decoding order. */
  lemma SortedValues(data: Data, src: Source, slots: seq<bytes>, it: Iter)
    requires Holds(data, src, slots) && Lists(it, data, WithPrefix(data, src.m.params.id))
    ensures it.values == Values(src, slots)
  {
    var id, n := src.m.params.id, |src.m.params.parts|;
    OrderedKeysEnumerate(id, n);
    EnumerationUnique(it.keys, OrderedKeys(id, n), KeySet(id, n));
    forall i | 0 <= i < n + 7
      ensures it.values[i] == Values(src, slots)[i]
    {
      assert it.keys[i] == FieldKey(id, ChannelKeys(n)[i]);
    }
  }

  // ----- which fields each operation rewrites

  /** The calls of the persister, with the signature index of SigAdded. */
  datatype Call = Staged | SigAdded(idx: nat) | Enabled | PhaseChanged

  /** The persister call that follows each successful operation. */
  function CallFor(m: Machine, op: Op): Call {
    match op
    case Init(_, _) => Staged
    case Update(_, _) => Staged
    case ForceUpdate(_) => Staged
    case SetProgressing(_) => Staged
    case DiscardUpdate => Staged
    case Sign => SigAdded(m.idx)
    case AddSig(i, _) => SigAdded(i)
    case EnableInit => Enabled
    case EnableUpdate => Enabled
    case EnableFinal => Enabled
    case SetProgressed(_) => Enabled
    case _ => PhaseChanged
  }

  /** The keys that a call rewrites for n participants. */
  function CallKeys(n: nat, c: Call): seq<bytes> {
    match c
    case Staged => [Ascii("staging:state"), Ascii("phase")]
    case SigAdded(i) => [SigKey(i, n)]
    case Enabled => [Ascii("staging:state"), Ascii("current"), Ascii("phase")] + SigKeys(n)
    case PhaseChanged => [Ascii("phase")]
  }

  // ----- runs

  datatype Event = Own(op: Op) | Foreign(data: Data)

  /** A persisted channel next to the table that holds it. The last two components follow what is in the
      signature fields: their bytes, and which of them are left over from a dropped staging transaction. */
  datatype Stored = Stored(src: Source, data: Data, slots: seq<bytes>, stale: set<nat>)

  /** Nothing under the channel's prefix differs. */
  ghost predicate SameChannel(a: Data, b: Data, id: ID) {
    WithPrefix(a, id) == WithPrefix(b, id) && forall k :: k in WithPrefix(a, id) ==> a[k] == b[k]
  }

  function SlotValues(m: Machine): (v: seq<bytes>)
    ensures |v| == |m.params.parts|
  {
    seq(|m.params.parts|, i => SlotValue(m.staging, i))
  }

  function SlotsAfter(slots: seq<bytes>, m: Machine, c: Call): (r: seq<bytes>)
    ensures |slots| == |m.params.parts| ==> |r| == |slots|
  {
    match c
    case SigAdded(i) => if i < |slots| then slots[i := SlotValue(m.staging, i)] else slots
    case Enabled => SlotValues(m)
    case _ => slots
  }

  function FilledSlots(m: Machine): set<nat> {
    set i: nat | 0 <= i < |m.params.parts| && SlotValue(m.staging, i) != []
  }

  /** Dropping or replacing a staging transaction leaves its filled slots behind; writing a slot again or
      enabling an update cleans up. */
  function StaleAfter(stale: set<nat>, before: Machine, c: Call): set<nat> {
    match c
    case Staged => stale + FilledSlots(before)
    case SigAdded(i) => stale - {i}
    case Enabled => {}
    case PhaseChanged => stale
  }

  /** The persister call c of a machine that has moved to m. */
  function AfterCall(s: Stored, m: Machine, c: Call): Stored {
    Stored(s.src.(m := m),
           match PutFields(s.data, m, CallKeys(|m.params.parts|, c)) case None => s.data case Some(d) => d,
           SlotsAfter(s.slots, m, c), StaleAfter(s.stale, s.src.m, c))
  }

  ghost function Step(env: Env, s: Stored, e: Event): Stored {
    match e
    case Foreign(data) => if SameChannel(s.data, data, s.src.m.params.id) then s.(data := data) else s
    case Own(op) =>
      match Apply(env, s.src.m, op)
      case None => s
      case Some(m) =>
        AfterCall(s, m, CallFor(s.src.m, op))
  }

  ghost function Run(env: Env, s: Stored, events: seq<Event>): Stored {
    if events == [] then s else Step(env, Run(env, s, events[..|events| - 1]), events[|events| - 1])
  }

  // ----- creation

  function CreatedKeys(n: nat): seq<bytes> {
    [Ascii("current"), Ascii("index"), Ascii("params"), Ascii("phase"), Ascii("staging:state")] + SigKeys(n)
  }

  /** Writing the parent and the peers besides the machine's own fields. */
  function WithRelatives(data: Data, src: Source): Data {
    var id := src.m.params.id;
    data[FieldKey(id, Ascii("parent")) := Value(EncParent(src.parent))]
        [FieldKey(id, Ascii("peers")) := Value(EncAddresses(src.peers))]
  }

  function CreatedFrom(data: Data, src: Source, keys: seq<bytes>): Option<Data> {
    match PutFields(data, src.m, keys)
    case None => None
    case Some(d) =>
      if EncParent(src.parent).None? || EncAddresses(src.peers).None? then None
      else Some(WithRelatives(d, src))
  }

  /** ChannelCreated on the channel table. */
  function Created(data: Data, src: Source): Option<Data> {
    CreatedFrom(data, src, CreatedKeys(|src.m.params.parts|))
  }

  // ----- operations that stay within what can be encoded

  /** Constant dimensions, encodable states and fixed-length signatures; the channel is not removed. */
  ghost predicate WireOp(bk: Backend, params: Params, op: Op) {
    match op
    case Init(alloc, data) => WireAllocation(alloc) && WireData(bk.decData, params.app, data)
    case Update(s, _) => WireState(bk.decData, s) && NumParts(s.alloc) == |params.parts|
    case ForceUpdate(s) => WireState(bk.decData, s) && NumParts(s.alloc) == |params.parts|
    case SetProgressing(s) => WireState(bk.decData, s) && NumParts(s.alloc) == |params.parts|
    case SetProgressed(s) => WireState(bk.decData, s) && NumParts(s.alloc) == |params.parts|
    case AddSig(_, sig) => |sig| == SparseSigs.SIG_LEN
    case SetWithdrawn => false
    case _ => true
  }

  ghost predicate FixedLengthSigner(env: Env) {
    forall a, s :: |env.sign(a, s)| == SparseSigs.SIG_LEN
  }

  lemma StageWire(bk: Backend, m: Machine, s: State, p: Phase)
    requires WireState(bk.decData, s) && NumParts(s.alloc) == |m.params.parts|
    ensures WireTx(bk, Stage(m, p, s).staging, |m.params.parts|) && WireTx(bk, NewTx(m, s), |m.params.parts|)
  {
  }

  /** Transactions that can be encoded stay so. */
  lemma WireTxStep(env: Env, bk: Backend, m: Machine, op: Op)
    requires WireTx(bk, m.current, |m.params.parts|) && WireTx(bk, m.staging, |m.params.parts|)
    requires WireOp(bk, m.params, op) && FixedLengthSigner(env) && |m.params.id| == ID_LEN && Apply(env, m, op).Some?
    requires WireApp(m.params.app)
    ensures var m2 := Apply(env, m, op).value;
            WireTx(bk, m2.current, |m.params.parts|) && WireTx(bk, m2.staging, |m.params.parts|)
  {
    match op
    case Init(alloc, data) => StageWire(bk, m, NewState(m.params, alloc, data).value, InitSigning);
    case Update(s, _) => StageWire(bk, m, s, Signing);
    case ForceUpdate(s) => StageWire(bk, m, s, Signing);
    case SetProgressing(s) => StageWire(bk, m, s, Progressing);
    case SetProgressed(s) => StageWire(bk, m, s, Progressed);
    case _ =>
  }

  lemma WireStep(env: Env, bk: Backend, src: Source, op: Op)
    requires WireSource(bk, src) && WireOp(bk, src.m.params, op) && FixedLengthSigner(env)
    requires Apply(env, src.m, op).Some?
    ensures WireSource(bk, src.(m := Apply(env, src.m, op).value))
  {
    WireTxStep(env, bk, src.m, op);
    KeptFields(env, src.m, op);
  }

  // ----- the invariant

  /** A slot in the database is what the machine has, or a leftover where the machine has nothing. */
  ghost predicate SlotsInv(m: Machine, slots: seq<bytes>, stale: set<nat>) {
    && |slots| == |m.params.parts| && WireSlots(slots)
    && forall i: nat :: i < |slots| ==>
         if i in stale then slots[i] != [] && SlotValue(m.staging, i) == [] else slots[i] == SlotValue(m.staging, i)
  }

  ghost predicate StoredInv(bk: Backend, s: Stored) {
    && WireSource(bk, s.src)
    && Holds(s.data, s.src, s.slots)
    && SlotsInv(s.src.m, s.slots, s.stale)
  }

  lemma SlotValuesWire(bk: Backend, m: Machine)
    requires WireTx(bk, m.staging, |m.params.parts|)
    ensures WireSlots(SlotValues(m))
  {
  }

  lemma StagingDropsSlots(env: Env, src: Source, slots: seq<bytes>, stale: set<nat>, op: Op)
    requires SlotsInv(src.m, slots, stale) && CallFor(src.m, op) == Staged && Apply(env, src.m, op).Some?
    ensures SlotsInv(Apply(env, src.m, op).value, slots, stale + FilledSlots(src.m))
  {
    var m2 := Apply(env, src.m, op).value;
    assert forall i: nat :: i < |slots| ==> SlotValue(m2.staging, i) == [];
  }

  lemma SignatureFillsSlot(env: Env, bk: Backend, src: Source, slots: seq<bytes>, stale: set<nat>, op: Op)
    requires SlotsInv(src.m, slots, stale) && (op.Sign? || op.AddSig?) && Apply(env, src.m, op).Some?
    requires WireTx(bk, Apply(env, src.m, op).value.staging, |src.m.params.parts|)
    ensures var m2, c := Apply(env, src.m, op).value, CallFor(src.m, op);
            SlotsInv(m2, SlotsAfter(slots, m2, c), StaleAfter(stale, src.m, c))
  {
    var m2 := Apply(env, src.m, op).value;
    var p := CallFor(src.m, op).idx;
    assert forall i: nat :: i < |slots| && i != p ==> SlotValue(m2.staging, i) == SlotValue(src.m.staging, i);
    SlotValuesWire(bk, m2);
    assert SlotValues(m2)[p] == SlotValue(m2.staging, p);
  }

  lemma SlotsStep(env: Env, bk: Backend, src: Source, slots: seq<bytes>, stale: set<nat>, op: Op)
    requires SlotsInv(src.m, slots, stale)
    requires Apply(env, src.m, op).Some? && WireTx(bk, Apply(env, src.m, op).value.staging, |src.m.params.parts|)
    ensures var m2, c := Apply(env, src.m, op).value, CallFor(src.m, op);
            SlotsInv(m2, SlotsAfter(slots, m2, c), StaleAfter(stale, src.m, c))
  {
    var m2 := Apply(env, src.m, op).value;
    match CallFor(src.m, op)
    case Staged => StagingDropsSlots(env, src, slots, stale, op);
    case SigAdded(_) => SignatureFillsSlot(env, bk, src, slots, stale, op);
    case Enabled => SlotValuesWire(bk, m2);
    case PhaseChanged => assert m2.staging == src.m.staging;
  }

  ghost predicate Distinct(all: seq<bytes>) {
    forall i, j :: 0 <= i < |all| && 0 <= j < |all| && all[i] == all[j] ==> i == j
  }

  lemma ChannelKeysDistinct(n: nat)
    ensures Distinct(ChannelKeys(n))
  {
    forall i, j | 0 <= i < n + 7 && 0 <= j < n + 7 && ChannelKeys(n)[i] == ChannelKeys(n)[j]
      ensures i == j
    {
      KeysDistinct(n, i, j);
    }
  }

  /** Of all keys, those at the given positions and no others are rewritten. */
  ghost predicate KeysAt(keys: seq<bytes>, all: seq<bytes>, at: set<nat>) {
    && (forall j :: 0 <= j < |keys| ==> keys[j] in all)
    && (forall i: nat :: i < |all| ==> (all[i] in keys <==> i in at))
  }

  function SigPositions(n: nat): (at: set<nat>)
    ensures forall i: nat :: i in at <==> 6 <= i < n + 6
  {
    if n == 0 then {} else SigPositions(n - 1) + {n + 5}
  }

  /** The positions of the keys that a call rewrites. */
  function CallAt(n: nat, c: Call): (at: set<nat>)
    ensures 3 !in at && 4 !in at
  {
    match c
    case Staged => {n + 6} + {5}
    case SigAdded(i) => {i + 6}
    case Enabled => {n + 6} + {0} + {5} + SigPositions(n)
    case PhaseChanged => {5}
  }

  /** The keys outside the signature slots by name. */
  lemma NamedKeys(n: nat)
    ensures var all := ChannelKeys(n);
            && all[0] == Ascii("current") && all[1] == Ascii("index") && all[2] == Ascii("params")
            && all[3] == Ascii("parent") && all[4] == Ascii("peers") && all[5] == Ascii("phase")
            && all[n + 6] == Ascii("staging:state")
            && all[6..n + 6] == SigKeys(n)
  {
  }

  lemma SigKeyPosition(n: nat, i: nat)
    requires i < n
    ensures ChannelKeys(n)[i + 6] == SigKey(i, n)
  {
  }

  lemma SingleKeyAt(all: seq<bytes>, p: nat)
    requires Distinct(all) && p < |all|
    ensures KeysAt([all[p]], all, {p})
  {
  }

  lemma KeysAtUnion(a: seq<bytes>, b: seq<bytes>, all: seq<bytes>, s: set<nat>, t: set<nat>)
    requires KeysAt(a, all, s) && KeysAt(b, all, t)
    ensures KeysAt(a + b, all, s + t)
  {
  }

  lemma SegmentKeysAt(all: seq<bytes>, n: nat)
    requires Distinct(all) && |all| == n + 7
    ensures KeysAt(all[6..n + 6], all, SigPositions(n))
  {
    forall i: nat | i < n + 7
      ensures all[i] in all[6..n + 6] <==> i in SigPositions(n)
    {
      if 6 <= i < n + 6 {
        assert all[6..n + 6][i - 6] == all[i];
      }
    }
  }

  lemma StagedPositions(all: seq<bytes>, n: nat)
    requires Distinct(all) && |all| == n + 7
    ensures KeysAt([all[n + 6], all[5]], all, {n + 6} + {5})
  {
    SingleKeyAt(all, 5);
    SingleKeyAt(all, n + 6);
    KeysAtUnion([all[n + 6]], [all[5]], all, {n + 6}, {5});
    assert [all[n + 6]] + [all[5]] == [all[n + 6], all[5]];
  }

  lemma EnabledPositions(all: seq<bytes>, n: nat)
    requires Distinct(all) && |all| == n + 7
    ensures KeysAt([all[n + 6], all[0], all[5]] + all[6..n + 6], all, {n + 6} + {0} + {5} + SigPositions(n))
  {
    SingleKeyAt(all, 0);
    SingleKeyAt(all, 5);
    SingleKeyAt(all, n + 6);
    SegmentKeysAt(all, n);
    KeysAtUnion([all[n + 6]], [all[0]], all, {n + 6}, {0});
    KeysAtUnion([all[n + 6]] + [all[0]], [all[5]], all, {n + 6} + {0}, {5});
    KeysAtUnion([all[n + 6]] + [all[0]] + [all[5]], all[6..n + 6], all, {n + 6} + {0} + {5}, SigPositions(n));
    assert [all[n + 6]] + [all[0]] + [all[5]] == [all[n + 6], all[0], all[5]];
  }

  lemma CallKeysAt(n: nat, c: Call)
    requires c.SigAdded? ==> c.idx < n
    ensures KeysAt(CallKeys(n, c), ChannelKeys(n), CallAt(n, c))
  {
    var all := ChannelKeys(n);
    ChannelKeysDistinct(n);
    match c
    case SigAdded(i) =>
      SigKeyPosition(n, i);
      SingleKeyAt(all, i + 6);
    case Staged =>
      NamedKeys(n);
      StagedPositions(all, n);
    case Enabled =>
      NamedKeys(n);
      EnabledPositions(all, n);
    case PhaseChanged =>
      NamedKeys(n);
      SingleKeyAt(all, 5);
  }

  lemma StateWritable(bk: Backend, src: Source, i: nat)
    requires WireSource(bk, src) && i < |src.m.params.parts| + 7 && i != 3 && i != 4
    ensures FieldValue(src.m, ChannelKeys(|src.m.params.parts|)[i]).Some?
  {
    FieldValueAt(src.m, i);
    if i == 0 {
      TransactionRoundTrip(bk.decData, src.m.current);
    } else if i == 2 {
      ParamsRoundTrip(bk.calcID, src.m.params, []);
    } else if i == |src.m.params.parts| + 6 && src.m.staging.state.Some? {
      StateRoundTrip(bk.decData, src.m.staging.state.value);
    }
  }

  lemma AllWritable(bk: Backend, src: Source, keys: seq<bytes>, at: set<nat>)
    requires WireSource(bk, src) && KeysAt(keys, ChannelKeys(|src.m.params.parts|), at) && 3 !in at && 4 !in at
    ensures Writable(src.m, keys)
  {
    var n := |src.m.params.parts|;
    forall j | 0 <= j < |keys|
      ensures FieldValue(src.m, keys[j]).Some?
    {
      var i :| 0 <= i < n + 7 && ChannelKeys(n)[i] == keys[j];
      assert i in at;
      StateWritable(bk, src, i);
    }
  }

  /** The parts of the machine that an operation with this call leaves alone. */
  ghost predicate Kept(m: Machine, c: Call, m2: Machine) {
    && m2.params == m.params && m2.idx == m.idx
    && (c != Enabled ==> m2.current == m.current)
    && (c.SigAdded? || c.PhaseChanged? ==> m2.staging.state == m.staging.state)
    && (c.SigAdded? ==> m2.phase == m.phase && c.idx < |m.params.parts|)
  }

  lemma KeptFields(env: Env, m: Machine, op: Op)
    requires Apply(env, m, op).Some?
    ensures Kept(m, CallFor(m, op), Apply(env, m, op).value)
  {
  }

  lemma ValuesAt(src: Source, slots: seq<bytes>, i: nat)
    requires i < |slots| + 7
    ensures Values(src, slots)[i] ==
            if i == 0 then Value(EncTransaction(src.m.current))
            else if i == 1 then Value(EncIndex(src.m.idx))
            else if i == 2 then Value(EncParams(src.m.params))
            else if i == 3 then Value(EncParent(src.parent))
            else if i == 4 then Value(EncAddresses(src.peers))
            else if i == 5 then Value(EncPhase(src.m.phase))
            else if i < |slots| + 6 then slots[i - 6]
            else Value(EncStagedState(src.m.staging.state))
  {
  }

  /** The values outside the signature slots depend on the kept parts of the machine only. */
  lemma KeptValues(src: Source, slots: seq<bytes>, src2: Source, slots2: seq<bytes>, i: nat)
    requires |slots| == |slots2| && i < |slots| + 7 && src2 == src.(m := src2.m)
    requires src2.m.params == src.m.params && src2.m.idx == src.m.idx
    requires i == 0 ==> src2.m.current == src.m.current
    requires i == 5 ==> src2.m.phase == src.m.phase
    requires i == |slots| + 6 ==> src2.m.staging.state == src.m.staging.state
    requires 6 <= i < |slots| + 6 ==> slots2[i - 6] == slots[i - 6]
    ensures Values(src2, slots2)[i] == Values(src, slots)[i]
  {
    ValuesAt(src, slots, i);
    ValuesAt(src2, slots2, i);
  }

  /** The machine's fields at every position that a call does not rewrite are unchanged by the operation. */
  lemma UntouchedFields(src: Source, slots: seq<bytes>, c: Call, m: Machine, i: nat)
    requires |slots| == |src.m.params.parts| && i < |slots| + 7 && Kept(src.m, c, m)
    requires i !in CallAt(|slots|, c)
    ensures Values(src.(m := m), SlotsAfter(slots, m, c))[i] == Values(src, slots)[i]
  {
    if 6 <= i < |slots| + 6 {
      UntouchedSlot(m, slots, c, i - 6);
    }
    KeptValues(src, slots, src.(m := m), SlotsAfter(slots, m, c), i);
  }

  lemma UntouchedSlot(m: Machine, slots: seq<bytes>, c: Call, i: nat)
    requires |slots| == |m.params.parts| && i < |slots| && i + 6 !in CallAt(|slots|, c)
    ensures SlotsAfter(slots, m, c)[i] == slots[i]
  {
  }

  lemma TouchedSlot(m: Machine, slots: seq<bytes>, c: Call, i: nat)
    requires |slots| == |m.params.parts| && i < |slots| && i + 6 in CallAt(|slots|, c)
    ensures SlotsAfter(slots, m, c)[i] == SlotValue(m.staging, i)
  {
  }

  lemma TouchedFields(src: Source, slots: seq<bytes>, c: Call, i: nat)
    requires |slots| == |src.m.params.parts| && i < |slots| + 7 && i in CallAt(|slots|, c)
    ensures Values(src, SlotsAfter(slots, src.m, c))[i] == Value(FieldValue(src.m, ChannelKeys(|slots|)[i]))
  {
    if 6 <= i < |slots| + 6 {
      TouchedSlot(src.m, slots, c, i - 6);
    }
    var after := SlotsAfter(slots, src.m, c);
    FieldValueAt(src.m, i);
    ValuesAt(src, after, i);
  }

  /** The field at a position after the operation was persisted. */
  lemma FieldAfter(src: Source, slots: seq<bytes>, c: Call, m: Machine, keys: seq<bytes>, i: nat)
    requires |slots| == |src.m.params.parts| && i < |slots| + 7 && Kept(src.m, c, m)
    requires KeysAt(keys, ChannelKeys(|slots|), CallAt(|slots|, c))
    ensures Values(src.(m := m), SlotsAfter(slots, m, c))[i] ==
            if ChannelKeys(|slots|)[i] in keys then Value(FieldValue(m, ChannelKeys(|slots|)[i])) else Values(src, slots)[i]
  {
    if i in CallAt(|slots|, c) {
      TouchedFields(src.(m := m), slots, c, i);
    } else {
      UntouchedFields(src, slots, c, m, i);
    }
  }

  lemma RewritesFields(src: Source, slots: seq<bytes>, m: Machine, keys: seq<bytes>, src2: Source, slots2: seq<bytes>)
    requires src.m.params == m.params && src2.m == m && |slots| == |slots2| == |m.params.parts|
    requires Writable(m, keys)
    requires forall j :: 0 <= j < |keys| ==> keys[j] in ChannelKeys(|slots|)
    requires forall i: nat :: i < |slots| + 7 ==>
               Values(src2, slots2)[i] ==
               if ChannelKeys(|slots|)[i] in keys then Value(FieldValue(m, ChannelKeys(|slots|)[i])) else Values(src, slots)[i]
    ensures Rewrites(src, slots, m, keys, src2, slots2)
  {
  }

  lemma FieldsAfter(bk: Backend, src: Source, slots: seq<bytes>, c: Call, m: Machine, keys: seq<bytes>)
    requires |slots| == |src.m.params.parts| && Kept(src.m, c, m) && WireSource(bk, src.(m := m))
    requires KeysAt(keys, ChannelKeys(|slots|), CallAt(|slots|, c))
    ensures Rewrites(src, slots, m, keys, src.(m := m), SlotsAfter(slots, m, c))
  {
    var after := SlotsAfter(slots, m, c);
    AllWritable(bk, src.(m := m), keys, CallAt(|slots|, c));
    forall i: nat | i < |slots| + 7
      ensures Values(src.(m := m), after)[i] ==
              if ChannelKeys(|slots|)[i] in keys then Value(FieldValue(m, ChannelKeys(|slots|)[i])) else Values(src, slots)[i]
    {
      FieldAfter(src, slots, c, m, keys, i);
    }
    RewritesFields(src, slots, m, keys, src.(m := m), after);
  }

  lemma StepRewrites(bk: Backend, src: Source, slots: seq<bytes>, c: Call, m: Machine)
    requires |slots| == |src.m.params.parts| && Kept(src.m, c, m)
    requires WireSource(bk, src.(m := m))
    ensures Rewrites(src, slots, m, CallKeys(|slots|, c), src.(m := m), SlotsAfter(slots, m, c))
  {
    CallKeysAt(|slots|, c);
    FieldsAfter(bk, src, slots, c, m, CallKeys(|slots|, c));
  }

  /** What an operation that is followed by call c does to the machine. */
  ghost predicate Moves(bk: Backend, s: Stored, m: Machine, c: Call) {
    && Kept(s.src.m, c, m) && WireSource(bk, s.src.(m := m))
    && SlotsInv(m, SlotsAfter(s.slots, m, c), StaleAfter(s.stale, s.src.m, c))
  }

  lemma OperationMoves(env: Env, bk: Backend, s: Stored, op: Op, m: Machine, c: Call)
    requires StoredInv(bk, s) && WireOp(bk, s.src.m.params, op) && FixedLengthSigner(env)
    requires Apply(env, s.src.m, op) == Some(m) && c == CallFor(s.src.m, op)
    ensures Moves(bk, s, m, c)
  {
    WireStep(env, bk, s.src, op);
    SlotsStep(env, bk, s.src, s.slots, s.stale, op);
    KeptFields(env, s.src.m, op);
  }

  lemma CallKeepsInv(bk: Backend, s: Stored, m: Machine, c: Call)
    requires StoredInv(bk, s) && Moves(bk, s, m, c)
    ensures PutFields(s.data, m, CallKeys(|s.slots|, c)).Some? && StoredInv(bk, AfterCall(s, m, c))
  {
    StepRewrites(bk, s.src, s.slots, c, m);
    HoldsAfterPut(s.data, s.src, s.slots, m, CallKeys(|s.slots|, c), s.src.(m := m), SlotsAfter(s.slots, m, c));
  }

  lemma OwnStepKeepsInv(env: Env, bk: Backend, s: Stored, op: Op)
    requires StoredInv(bk, s) && WireOp(bk, s.src.m.params, op) && FixedLengthSigner(env)
    ensures StoredInv(bk, Step(env, s, Own(op)))
  {
    if Apply(env, s.src.m, op).Some? {
      var m := Apply(env, s.src.m, op).value;
      var c := CallFor(s.src.m, op);
      OperationMoves(env, bk, s, op, m, c);
      CallKeepsInv(bk, s, m, c);
    }
  }

  lemma ForeignStepKeepsInv(bk: Backend, s: Stored, data: Data)
    requires StoredInv(bk, s) && SameChannel(s.data, data, s.src.m.params.id)
    ensures StoredInv(bk, s.(data := data))
  {
    var id, n := s.src.m.params.id, |s.src.m.params.parts|;
    forall i | 0 <= i < n + 7
      ensures FieldKey(id, ChannelKeys(n)[i]) in data
      ensures data[FieldKey(id, ChannelKeys(n)[i])] == Values(s.src, s.slots)[i]
    {
      var k := FieldKey(id, ChannelKeys(n)[i]);
      assert k in KeySet(id, n);
      assert k in WithPrefix(s.data, id);
    }
  }

  ghost predicate WireRun(bk: Backend, params: Params, events: seq<Event>) {
    forall i :: 0 <= i < |events| && events[i].Own? ==> WireOp(bk, params, events[i].op)
  }

  lemma {:induction false} RunKeepsInv(env: Env, bk: Backend, s: Stored, events: seq<Event>)
    requires StoredInv(bk, s) && WireRun(bk, s.src.m.params, events) && FixedLengthSigner(env)
    ensures StoredInv(bk, Run(env, s, events)) && Run(env, s, events).src.m.params == s.src.m.params
  {
    if events != [] {
      var init, last := events[..|events| - 1], events[|events| - 1];
      assert WireRun(bk, s.src.m.params, init);
      RunKeepsInv(env, bk, s, init);
      var mid := Run(env, s, init);
      match last
      case Own(op) => OwnStepKeepsInv(env, bk, mid, op);
      case Foreign(data) =>
        if SameChannel(mid.data, data, mid.src.m.params.id) {
          ForeignStepKeepsInv(bk, mid, data);
        }
    }
  }

  // ----- creation

  lemma CreatedPositions(all: seq<bytes>, n: nat)
    requires Distinct(all) && |all| == n + 7
    ensures KeysAt([all[0], all[1], all[2], all[5], all[n + 6]] + all[6..n + 6], all,
                   {0} + {1} + {2} + {5} + {n + 6} + SigPositions(n))
  {
    var five := [all[0]] + [all[1]] + [all[2]] + [all[5]] + [all[n + 6]];
    SingleKeyAt(all, 0);
    SingleKeyAt(all, 1);
    SingleKeyAt(all, 2);
    SingleKeyAt(all, 5);
    SingleKeyAt(all, n + 6);
    SegmentKeysAt(all, n);
    KeysAtUnion([all[0]], [all[1]], all, {0}, {1});
    KeysAtUnion([all[0]] + [all[1]], [all[2]], all, {0} + {1}, {2});
    KeysAtUnion([all[0]] + [all[1]] + [all[2]], [all[5]], all, {0} + {1} + {2}, {5});
    KeysAtUnion([all[0]] + [all[1]] + [all[2]] + [all[5]], [all[n + 6]], all, {0} + {1} + {2} + {5}, {n + 6});
    KeysAtUnion(five, all[6..n + 6], all, {0} + {1} + {2} + {5} + {n + 6}, SigPositions(n));
    assert five == [all[0], all[1], all[2], all[5], all[n + 6]];
  }

  function CreatedAt(n: nat): (at: set<nat>)
    ensures forall i: nat :: i in at <==> i < n + 7 && i != 3 && i != 4
  {
    {0} + {1} + {2} + {5} + {n + 6} + SigPositions(n)
  }

  lemma CreatedKeysAt(n: nat)
    ensures KeysAt(CreatedKeys(n), ChannelKeys(n), CreatedAt(n))
  {
    ChannelKeysDistinct(n);
    NamedKeys(n);
    CreatedPositions(ChannelKeys(n), n);
  }

  /** The value at a position that the machine itself supplies. */
  lemma OwnFieldCreated(src: Source, i: nat)
    requires i < |src.m.params.parts| + 7 && i != 3 && i != 4
    ensures var n := |src.m.params.parts|;
            Values(src, SlotValues(src.m))[i] == Value(FieldValue(src.m, ChannelKeys(n)[i]))
  {
    FieldValueAt(src.m, i);
    ValuesAt(src, SlotValues(src.m), i);
  }

  /** The state of the table after the machine's own fields were written. */
  lemma OwnFieldsWritten(bk: Backend, src: Source, data: Data, keys: seq<bytes>, at: set<nat>, i: nat)
    requires WireSource(bk, src) && KeysAt(keys, ChannelKeys(|src.m.params.parts|), at)
    requires i < |src.m.params.parts| + 7 && i in at && 3 !in at && 4 !in at
    ensures var k := FieldKey(src.m.params.id, ChannelKeys(|src.m.params.parts|)[i]);
            && PutFields(data, src.m, keys).Some? && k in PutFields(data, src.m, keys).value
            && PutFields(data, src.m, keys).value[k] == Values(src, SlotValues(src.m))[i]
  {
    AllWritable(bk, src, keys, at);
    PutFieldsHit(data, src.m, keys, ChannelKeys(|src.m.params.parts|)[i]);
    OwnFieldCreated(src, i);
  }

  lemma DistinctFieldKeys(id: ID, n: nat, i: nat, j: nat)
    requires i < n + 7 && j < n + 7 && i != j
    ensures FieldKey(id, ChannelKeys(n)[i]) != FieldKey(id, ChannelKeys(n)[j])
  {
    if FieldKey(id, ChannelKeys(n)[i]) == FieldKey(id, ChannelKeys(n)[j]) {
      FieldKeyInjective(id, ChannelKeys(n)[i], ChannelKeys(n)[j]);
      KeysDistinct(n, i, j);
    }
  }

  lemma RelativesWritten(data: Data, src: Source, slots: seq<bytes>, i: nat)
    requires var n := |src.m.params.parts|; |slots| == n && i < n + 7
    requires var k := FieldKey(src.m.params.id, ChannelKeys(|slots|)[i]);
             i == 3 || i == 4 || (k in data && data[k] == Values(src, slots)[i])
    ensures var k := FieldKey(src.m.params.id, ChannelKeys(|slots|)[i]);
            k in WithRelatives(data, src) && WithRelatives(data, src)[k] == Values(src, slots)[i]
  {
    var id, n := src.m.params.id, |slots|;
    NamedKeys(n);
    ValuesAt(src, slots, i);
    if i != 3 { DistinctFieldKeys(id, n, i, 3); }
    if i != 4 { DistinctFieldKeys(id, n, i, 4); }
  }

  lemma OnlyChannelKeys(data: Data, src: Source, keys: seq<bytes>, k: bytes)
    requires Writable(src.m, keys) && PutFields(data, src.m, keys).Some?
    requires forall j :: 0 <= j < |keys| ==> keys[j] in ChannelKeys(|src.m.params.parts|)
    requires WithPrefix(data, src.m.params.id) == {}
    requires k in WithPrefix(WithRelatives(PutFields(data, src.m, keys).value, src), src.m.params.id)
    ensures k in KeySet(src.m.params.id, |src.m.params.parts|)
  {
    var id, n := src.m.params.id, |src.m.params.parts|;
    NamedKeys(n);
    if k == FieldKey(id, Ascii("parent")) {
      assert k == FieldKey(id, ChannelKeys(n)[3]);
    } else if k == FieldKey(id, Ascii("peers")) {
      assert k == FieldKey(id, ChannelKeys(n)[4]);
    } else {
      NoNewKeys(data, src.m, keys, k);
      assert k !in WithPrefix(data, id);
    }
  }

  lemma HoldsFields(data: Data, src: Source, slots: seq<bytes>)
    requires |slots| == |src.m.params.parts|
    requires forall i: nat :: i < |slots| + 7 ==>
               var k := FieldKey(src.m.params.id, ChannelKeys(|slots|)[i]); k in data && data[k] == Values(src, slots)[i]
    requires forall k :: k in WithPrefix(data, src.m.params.id) ==> k in KeySet(src.m.params.id, |slots|)
    ensures Holds(data, src, slots)
  {
    var id, n := src.m.params.id, |slots|;
    forall k | k in KeySet(id, n)
      ensures k in WithPrefix(data, id)
    {
      var i :| 0 <= i < n + 7 && k == FieldKey(id, ChannelKeys(n)[i]);
      assert id <= k by { assert k[..|id|] == id; }
    }
  }

  lemma CreatedFields(bk: Backend, data: Data, src: Source, keys: seq<bytes>, at: set<nat>, i: nat)
    requires WireSource(bk, src) && KeysAt(keys, ChannelKeys(|src.m.params.parts|), at)
    requires i < |src.m.params.parts| + 7 && 3 !in at && 4 !in at && (i in at || i == 3 || i == 4)
    requires PutFields(data, src.m, keys).Some?
    ensures var k, r := FieldKey(src.m.params.id, ChannelKeys(|src.m.params.parts|)[i]), WithRelatives(PutFields(data, src.m, keys).value, src);
            k in r && r[k] == Values(src, SlotValues(src.m))[i]
  {
    if i != 3 && i != 4 {
      OwnFieldsWritten(bk, src, data, keys, at, i);
    }
    RelativesWritten(PutFields(data, src.m, keys).value, src, SlotValues(src.m), i);
  }

  lemma CreatedWith(bk: Backend, data: Data, src: Source, keys: seq<bytes>, at: set<nat>)
    requires WireSource(bk, src) && WithPrefix(data, src.m.params.id) == {}
    requires KeysAt(keys, ChannelKeys(|src.m.params.parts|), at)
    requires forall i: nat :: i < |src.m.params.parts| + 7 ==> (i in at <==> i != 3 && i != 4)
    ensures PutFields(data, src.m, keys).Some?
    ensures Holds(WithRelatives(PutFields(data, src.m, keys).value, src), src, SlotValues(src.m))
  {
    AllWritable(bk, src, keys, at);
    PutFieldsSome(data, src.m, keys);
    var r, slots := WithRelatives(PutFields(data, src.m, keys).value, src), SlotValues(src.m);
    forall i: nat | i < |slots| + 7
      ensures var k := FieldKey(src.m.params.id, ChannelKeys(|slots|)[i]); k in r && r[k] == Values(src, slots)[i]
    {
      CreatedFields(bk, data, src, keys, at, i);
    }
    forall k | k in WithPrefix(r, src.m.params.id)
      ensures k in KeySet(src.m.params.id, |slots|)
    {
      OnlyChannelKeys(data, src, keys, k);
    }
    HoldsFields(r, src, slots);
  }

  lemma CreatedFromHolds(bk: Backend, data: Data, src: Source, keys: seq<bytes>, at: set<nat>)
    requires WireSource(bk, src) && WithPrefix(data, src.m.params.id) == {}
    requires KeysAt(keys, ChannelKeys(|src.m.params.parts|), at)
    requires forall i: nat :: i < |src.m.params.parts| + 7 ==> (i in at <==> i != 3 && i != 4)
    ensures CreatedFrom(data, src, keys).Some? && Holds(CreatedFrom(data, src, keys).value, src, SlotValues(src.m))
  {
    CreatedWith(bk, data, src, keys, at);
    ParentRoundTrip(src.parent);
    AddressesRoundTrip(src.peers);
  }

  /** Creating a channel under an unused ID puts exactly its fields into the table. */
  lemma CreatedHolds(bk: Backend, data: Data, src: Source)
    requires WireSource(bk, src) && WithPrefix(data, src.m.params.id) == {}
    ensures Created(data, src).Some? && Holds(Created(data, src).value, src, SlotValues(src.m))
  {
    var n := |src.m.params.parts|;
    CreatedKeysAt(n);
    CreatedFromHolds(bk, data, src, CreatedKeys(n), CreatedAt(n));
  }

  ghost function Begin(data: Data, src: Source): Stored {
    Stored(src, match Created(data, src) case None => data case Some(d) => d, SlotValues(src.m), {})
  }

  lemma BeginInv(bk: Backend, data: Data, src: Source)
    requires WireSource(bk, src) && WithPrefix(data, src.m.params.id) == {}
    ensures StoredInv(bk, Begin(data, src))
  {
    CreatedHolds(bk, data, src);
    SlotValuesWire(bk, src.m);
  }

  /** The tables differ at most below one channel's ID. */
  ghost predicate Within(a: Data, b: Data, id: ID) {
    forall k :: !(id <= k) ==> (k in a <==> k in b) && (k in a ==> a[k] == b[k])
  }

  lemma {:induction false} PutFieldsWithin(data: Data, m: Machine, keys: seq<bytes>)
    requires PutFields(data, m, keys).Some?
    ensures Within(data, PutFields(data, m, keys).value, m.params.id)
  {
    if keys != [] {
      var key := keys[|keys| - 1];
      PutFieldsWithin(data, m, keys[..|keys| - 1]);
      BelowID(m.params.id, key);
    }
  }

  lemma BelowID(id: ID, key: bytes)
    ensures id <= FieldKey(id, key)
  {
    assert FieldKey(id, key)[..|id|] == id;
  }

  /** Creating a channel writes below its ID only, the parent and the peers included. */
  lemma CreatedWithin(data: Data, src: Source, keys: seq<bytes>)
    requires CreatedFrom(data, src, keys).Some?
    ensures Within(data, CreatedFrom(data, src, keys).value, src.m.params.id)
  {
    PutFieldsWithin(data, src.m, keys);
    BelowID(src.m.params.id, Ascii("parent"));
    BelowID(src.m.params.id, Ascii("peers"));
  }

  /** A write below one channel's ID is a foreign write to every other channel. */
  lemma OtherChannelsUntouched(a: Data, b: Data, id: ID, other: ID)
    requires Within(a, b, id) && |id| == |other| && id != other
    ensures SameChannel(a, b, other)
  {
    forall k
      ensures k in WithPrefix(a, other) <==> k in WithPrefix(b, other)
      ensures k in WithPrefix(a, other) ==> a[k] == b[k]
    {
      assert other <= k ==> k[..|other|] == other;
    }
  }

  // ----- the main result

  /** The machine's own signature slot. */
  function MachineSlot(m: Machine, i: nat): Option<Sig> {
    if i < |m.staging.sigs| then m.staging.sigs[i] else None
  }

  lemma SlotAgrees(bk: Backend, s: Stored, i: nat)
    requires StoredInv(bk, s) && i < |s.slots|
    ensures SlotSigs(s.slots)[i] == MachineSlot(s.src.m, i) <==> i !in s.stale
  {
    var m := s.src.m;
    SlotValuesWire(bk, m);
    assert SlotValues(m)[i] == SlotValue(m.staging, i);
  }

  /** What was restored is the machine, with each signature slot as the machine has it exactly if the slot is
      not left over from a dropped staging transaction. */
  ghost predicate Matches(r: Restored, s: Stored) {
    var m := s.src.m;
    && r.params == m.params && r.idx == m.idx && r.phase == Rank(m.phase)
    && r.current == m.current && r.stagingState == m.staging.state
    && r.peers == s.src.peers && r.parent == s.src.parent
    && |r.sigs| == |m.params.parts|
    && forall i: nat :: i < |r.sigs| ==> (r.sigs[i] == MachineSlot(m, i) <==> i !in s.stale)
  }

  /** Reading a stored channel by key order yields the machine. */
  ghost predicate RestoresTo(bk: Backend, s: Stored, it: Iter) {
    var r := DecodeChannel(WireDecoders(bk), it.values);
    r.Some? && Matches(r.value, s)
  }

  lemma StoredRestores(bk: Backend, s: Stored, it: Iter)
    requires StoredInv(bk, s) && Lists(it, s.data, WithPrefix(s.data, s.src.m.params.id))
    ensures RestoresTo(bk, s, it)
  {
    SortedValues(s.data, s.src, s.slots, it);
    ValuesRoundTrip(bk, s.src, s.slots, []);
    assert it.values + [] == it.values;
    forall i: nat | i < |s.slots|
      ensures SlotSigs(s.slots)[i] == MachineSlot(s.src.m, i) <==> i !in s.stale
    {
      SlotAgrees(bk, s, i);
    }
  }

  ghost function StoredListing(bk: Backend, s: Stored): (it: Iter)
    requires StoredInv(bk, s)
    ensures Lists(it, s.data, WithPrefix(s.data, s.src.m.params.id))
  {
    var id, n := s.src.m.params.id, |s.src.m.params.parts|;
    OrderedKeysEnumerate(id, n);
    Iter(OrderedKeys(id, n), Values(s.src, s.slots), 0)
  }

  /** The operations of the channel itself. */
  function OwnOps(events: seq<Event>): seq<Op> {
    if events == [] then []
    else
      var last := events[|events| - 1];
      OwnOps(events[..|events| - 1]) + if last.Own? then [last.op] else []
  }

  lemma MachineStep(env: Env, s: Stored, e: Event)
    ensures Step(env, s, e).src.m == if e.Own? then Machines.Step(env, s.src.m, e.op) else s.src.m
  {
  }

  lemma MachineRunSnoc(env: Env, m: Machine, ops: seq<Op>, op: Op)
    ensures Machines.Run(env, m, ops + [op]) == Machines.Step(env, Machines.Run(env, m, ops), op)
  {
    assert (ops + [op])[..|ops|] == ops;
  }

  lemma OwnOpsSnoc(events: seq<Event>)
    requires events != []
    ensures var init, last := events[..|events| - 1], events[|events| - 1];
            OwnOps(events) == if last.Own? then OwnOps(init) + [last.op] else OwnOps(init)
  {
  }

  lemma {:induction false} StoredMachineRuns(env: Env, s: Stored, events: seq<Event>)
    ensures Run(env, s, events).src.m == Machines.Run(env, s.src.m, OwnOps(events))
  {
    if events != [] {
      var init, last := events[..|events| - 1], events[|events| - 1];
      StoredMachineRuns(env, s, init);
      MachineStep(env, Run(env, s, init), last);
      OwnOpsSnoc(events);
      if last.Own? {
        MachineRunSnoc(env, s.src.m, OwnOps(init), last.op);
      }
    }
  }

  /** After creation and any run of persisted operations, interleaved with any writes elsewhere, restoring
      yields the machine that ran those operations. */
  lemma RestoreRefines(env: Env, bk: Backend, data: Data, src: Source, events: seq<Event>, it: Iter)
    requires FixedLengthSigner(env) && WireSource(bk, src) && WithPrefix(data, src.m.params.id) == {}
    requires WireRun(bk, src.m.params, events)
    requires var s := Run(env, Begin(data, src), events); Lists(it, s.data, WithPrefix(s.data, src.m.params.id))
    ensures var s := Run(env, Begin(data, src), events);
            s.src.m == Machines.Run(env, src.m, OwnOps(events)) && RestoresTo(bk, s, it)
  {
    var begin := Begin(data, src);
    BeginInv(bk, data, src);
    RunKeepsInv(env, bk, begin, events);
    StoredMachineRuns(env, begin, events);
    StoredRestores(bk, Run(env, begin, events), it);
  }
}

/** Signatures of dropped staging transactions: Staged does not clear the signature keys
    (channel/persistence/keyvalue/persister.go), so restoring may bring such signatures back. */
module Leftovers {
  import opened Base
  import opened Allocations
  import opened States
  import opened Machines
  import opened Wire
  import Codec
  import SparseSigs
  import opened Keys
  import opened KeyLayout
  import opened ChannelIterators
  import opened Store
  import opened Persistence
  import opened Restore

  /** The event drops or replaces a staging transaction that has a signature in slot i. */
  ghost predicate DropsSlot(env: Env, s: Stored, e: Event, i: nat) {
    e.Own? && Apply(env, s.src.m, e.op).Some? && CallFor(s.src.m, e.op) == Staged && i in FilledSlots(s.src.m)
  }

  /** The event writes the key of slot i. */
  ghost predicate WritesSlot(env: Env, s: Stored, e: Event, i: nat) {
    e.Own? && Apply(env, s.src.m, e.op).Some? && CallFor(s.src.m, e.op) in {SigAdded(i), Enabled}
  }

  lemma StaleStep(env: Env, s: Stored, e: Event, i: nat)
    ensures i in Restore.Step(env, s, e).stale <==> DropsSlot(env, s, e, i) || (i in s.stale && !WritesSlot(env, s, e, i))
  {
  }

  /** The k-th event of a run drops what slot i has, and no later one writes the slot again. */
  ghost predicate LeftBehind(env: Env, s: Stored, events: seq<Event>, i: nat, k: nat) {
    && k < |events| && DropsSlot(env, Restore.Run(env, s, events[..k]), events[k], i)
    && forall j :: k < j < |events| ==> !WritesSlot(env, Restore.Run(env, s, events[..j]), events[j], i)
  }

  ghost predicate LeftOver(env: Env, s: Stored, events: seq<Event>, i: nat) {
    exists k: nat :: LeftBehind(env, s, events, i, k)
  }

  /** What holds of each event of a run and the state it meets. */
  ghost function Trace(env: Env, s: Stored, events: seq<Event>, f: (Stored, Event) -> bool): (t: seq<bool>)
    ensures |t| == |events|
  {
    seq(|events|, k requires 0 <= k < |events| => f(Restore.Run(env, s, events[..k]), events[k]))
  }

  lemma TraceSnoc(env: Env, s: Stored, events: seq<Event>, f: (Stored, Event) -> bool)
    requires events != []
    ensures var init, last := events[..|events| - 1], events[|events| - 1];
            Trace(env, s, events, f) == Trace(env, s, init, f) + [f(Restore.Run(env, s, init), last)]
  {
    var init := events[..|events| - 1];
    assert forall k :: 0 <= k < |init| ==> init[..k] == events[..k];
  }

  ghost function Drops(env: Env, i: nat): (Stored, Event) -> bool {
    (x, e) => DropsSlot(env, x, e, i)
  }

  ghost function Writes(env: Env, i: nat): (Stored, Event) -> bool {
    (x, e) => WritesSlot(env, x, e, i)
  }

  /** Position k holds in the first trace and no later position in the second. */
  predicate Unwritten(drops: seq<bool>, writes: seq<bool>, k: nat) {
    k < |drops| == |writes| && drops[k] && forall j :: k < j < |writes| ==> !writes[j]
  }

  lemma LeftOverTrace(env: Env, s: Stored, events: seq<Event>, i: nat)
    ensures LeftOver(env, s, events, i) <==>
            exists k: nat :: Unwritten(Trace(env, s, events, Drops(env, i)), Trace(env, s, events, Writes(env, i)), k)
  {
    forall k: nat
      ensures LeftBehind(env, s, events, i, k) <==> Unwritten(Trace(env, s, events, Drops(env, i)), Trace(env, s, events, Writes(env, i)), k)
    {
      TraceAt(env, s, events, i, k);
    }
  }

  lemma TraceAt(env: Env, s: Stored, events: seq<Event>, i: nat, k: nat)
    ensures LeftBehind(env, s, events, i, k) <==> Unwritten(Trace(env, s, events, Drops(env, i)), Trace(env, s, events, Writes(env, i)), k)
  {
    var writes := Trace(env, s, events, Writes(env, i));
    assert forall j :: 0 <= j < |events| ==> writes[j] == WritesSlot(env, Restore.Run(env, s, events[..j]), events[j], i);
  }

  lemma UnwrittenSnoc(drops: seq<bool>, writes: seq<bool>, drop: bool, write: bool)
    requires |drops| == |writes|
    ensures (exists k: nat :: Unwritten(drops + [drop], writes + [write], k)) <==>
            drop || ((exists k: nat :: Unwritten(drops, writes, k)) && !write)
  {
    var d, w, n := drops + [drop], writes + [write], |drops|;
    if drop {
      assert Unwritten(d, w, n);
    }
    forall k: nat | k < n
      ensures Unwritten(d, w, k) <==> Unwritten(drops, writes, k) && !write
    {
      assert d[k] == drops[k] && w[n] == write && forall j :: k < j < n ==> w[j] == writes[j];
    }
    if k: nat :| Unwritten(d, w, k) {
      assert k < n ==> Unwritten(drops, writes, k);
    }
  }

  lemma UnwrittenStep(env: Env, s: Stored, events: seq<Event>, f: (Stored, Event) -> bool, g: (Stored, Event) -> bool)
    requires events != []
    ensures var init, last := events[..|events| - 1], events[|events| - 1];
            var mid := Restore.Run(env, s, init);
            (exists k: nat :: Unwritten(Trace(env, s, events, f), Trace(env, s, events, g), k)) <==>
              f(mid, last) || ((exists k: nat :: Unwritten(Trace(env, s, init, f), Trace(env, s, init, g), k)) && !g(mid, last))
  {
    var init, last := events[..|events| - 1], events[|events| - 1];
    var mid := Restore.Run(env, s, init);
    TraceSnoc(env, s, events, f);
    TraceSnoc(env, s, events, g);
    UnwrittenSnoc(Trace(env, s, init, f), Trace(env, s, init, g), f(mid, last), g(mid, last));
  }

  lemma LeftOverStep(env: Env, s: Stored, events: seq<Event>, i: nat)
    requires events != []
    ensures var init, last := events[..|events| - 1], events[|events| - 1];
            var mid := Restore.Run(env, s, init);
            LeftOver(env, s, events, i) <==>
              DropsSlot(env, mid, last, i) || (LeftOver(env, s, init, i) && !WritesSlot(env, mid, last, i))
  {
    LeftOverTrace(env, s, events, i);
    LeftOverTrace(env, s, events[..|events| - 1], i);
    UnwrittenStep(env, s, events, Drops(env, i), Writes(env, i));
  }

  /** The slots that do not come from the machine are exactly those left over by the run. */
  lemma {:induction false} StaleExactly(env: Env, s: Stored, events: seq<Event>, i: nat)
    requires i !in s.stale
    ensures i in Restore.Run(env, s, events).stale <==> LeftOver(env, s, events, i)
  {
    if events != [] {
      var init := events[..|events| - 1];
      StaleExactly(env, s, init, i);
      LeftOverStep(env, s, events, i);
      StaleStep(env, Restore.Run(env, s, init), events[|events| - 1], i);
    }
  }

  /** After creation and any run, a restored signature slot is the machine's exactly if no event dropped a
      signature of that slot without a later one writing the slot. */
  lemma SlotRestoredIff(env: Env, bk: Backend, data: Data, src: Source, events: seq<Event>, it: Iter, i: nat)
    requires FixedLengthSigner(env) && WireSource(bk, src) && WithPrefix(data, src.m.params.id) == {}
    requires WireRun(bk, src.m.params, events) && i < |src.m.params.parts|
    requires var s := Restore.Run(env, Begin(data, src), events); Lists(it, s.data, WithPrefix(s.data, src.m.params.id))
    ensures var m, r := Machines.Run(env, src.m, OwnOps(events)), DecodeChannel(WireDecoders(bk), it.values);
            && r.Some? && i < |r.value.sigs|
            && (r.value.sigs[i] == MachineSlot(m, i) <==> !LeftOver(env, Begin(data, src), events, i))
  {
    RestoreRefines(env, bk, data, src, events, it);
    StaleExactly(env, Begin(data, src), events, i);
    RunKeepsIdentity(env, src.m, OwnOps(events));
  }

  /** So without an event that drops a signature all staged signatures are restored. */
  lemma NothingLeftOver(env: Env, bk: Backend, data: Data, src: Source, events: seq<Event>, it: Iter, i: nat)
    requires FixedLengthSigner(env) && WireSource(bk, src) && WithPrefix(data, src.m.params.id) == {}
    requires WireRun(bk, src.m.params, events) && i < |src.m.params.parts|
    requires var s := Restore.Run(env, Begin(data, src), events); Lists(it, s.data, WithPrefix(s.data, src.m.params.id))
    requires forall k :: 0 <= k < |events| ==> !DropsSlot(env, Restore.Run(env, Begin(data, src), events[..k]), events[k], i)
    ensures var m, r := Machines.Run(env, src.m, OwnOps(events)), DecodeChannel(WireDecoders(bk), it.values);
            r.Some? && i < |r.value.sigs| && r.value.sigs[i] == MachineSlot(m, i)
  {
    SlotRestoredIff(env, bk, data, src, events, it, i);
  }

  /** What restoring puts into a slot is what the store has there. */
  lemma SlotFromStore(bk: Backend, s: Stored, it: Iter, i: nat)
    requires StoredInv(bk, s) && Lists(it, s.data, WithPrefix(s.data, s.src.m.params.id)) && i < |s.slots|
    ensures var r := DecodeChannel(WireDecoders(bk), it.values);
            r.Some? && |r.value.sigs| == |s.slots| && r.value.sigs[i] == SlotSig(s.slots[i]) && r.value.stagingState == s.src.m.staging.state
  {
    SortedValues(s.data, s.src, s.slots, it);
    ValuesRoundTrip(bk, s.src, s.slots, []);
    assert it.values + [] == it.values;
  }

  lemma FilledSlotStored(bk: Backend, s: Stored, i: nat)
    requires StoredInv(bk, s) && i in FilledSlots(s.src.m)
    ensures i < |s.slots| && SlotSig(s.slots[i]) == MachineSlot(s.src.m, i) && MachineSlot(s.src.m, i).Some?
  {
    SlotAgrees(bk, s, i);
  }

  /** Staging leaves the signature keys alone, and the machine's slots are empty afterwards. */
  lemma StagedSlots(env: Env, s: Stored, op: Op, i: nat)
    requires Apply(env, s.src.m, op).Some? && CallFor(s.src.m, op) == Staged
    ensures var after := Restore.Step(env, s, Own(op)); after.slots == s.slots && MachineSlot(after.src.m, i) == None
  {
  }

  /** Dropping a signed staging transaction leaves its signatures in the store: restoring brings them back although
      the machine no longer has them. */
  lemma DroppedSignatureStays(env: Env, bk: Backend, s: Stored, op: Op, i: nat, it: Iter)
    requires StoredInv(bk, s) && WireOp(bk, s.src.m.params, op) && FixedLengthSigner(env) && DropsSlot(env, s, Own(op), i)
    requires var after := Restore.Step(env, s, Own(op)); Lists(it, after.data, WithPrefix(after.data, s.src.m.params.id))
    ensures var r := DecodeChannel(WireDecoders(bk), it.values);
            && r.Some? && i < |r.value.sigs|
            && r.value.sigs[i] == MachineSlot(s.src.m, i) && MachineSlot(s.src.m, i).Some?
            && MachineSlot(Restore.Step(env, s, Own(op)).src.m, i) == None
  {
    var after := Restore.Step(env, s, Own(op));
    OwnStepKeepsInv(env, bk, s, op);
    FilledSlotStored(bk, s, i);
    StagedSlots(env, s, op, i);
    MachineStep(env, s, Own(op));
    KeptFields(env, s.src.m, op);
    SlotFromStore(bk, after, it, i);
  }

  // ----- a signature next to a state that it does not sign

  /** An update that is staged, signed and discarded, and a second one that is staged. */
  function Replacing(a: State, p: Index, b: State, q: Index): seq<Event> {
    [Own(Update(a, p)), Own(Sign), Own(DiscardUpdate), Own(Update(b, q))]
  }

  lemma {:induction false} StoredRunAppend(env: Env, s: Stored, a: seq<Event>, b: seq<Event>)
    ensures Restore.Run(env, s, a + b) == Restore.Run(env, Restore.Run(env, s, a), b)
  {
    if b == [] {
      assert a + b == a;
    } else {
      StoredRunAppend(env, s, a, b[..|b| - 1]);
      assert (a + b)[..|a + b| - 1] == a + b[..|b| - 1];
    }
  }

  lemma RunOne(env: Env, s: Stored, e: Event)
    ensures Restore.Run(env, s, [e]) == Restore.Step(env, s, e)
  {
    assert [e][..0] == [] && Restore.Run(env, s, []) == s;
  }

  lemma RunTwo(env: Env, s: Stored, e: Event, f: Event)
    ensures Restore.Run(env, s, [e, f]) == Restore.Step(env, Restore.Step(env, s, e), f)
  {
    RunOne(env, s, e);
    assert [e, f] == [e] + [f];
    StoredRunAppend(env, s, [e], [f]);
    RunOne(env, Restore.Step(env, s, e), f);
  }

  lemma RunFour(env: Env, s: Stored, e: seq<Event>, s1: Stored, s2: Stored, s3: Stored)
    requires |e| == 4
    requires s1 == Restore.Step(env, s, e[0]) && s2 == Restore.Step(env, s1, e[1]) && s3 == Restore.Step(env, s2, e[2])
    ensures Restore.Run(env, s, e) == Restore.Step(env, s3, e[3])
  {
    assert e == [e[0], e[1]] + [e[2], e[3]];
    StoredRunAppend(env, s, [e[0], e[1]], [e[2], e[3]]);
    RunTwo(env, s, e[0], e[1]);
    RunTwo(env, s2, e[2], e[3]);
  }

  /** The machine can be updated to the state. */
  ghost predicate Updatable(env: Env, m: Machine, s: State, actor: Index) {
    m.phase == Acting && m.current.state.Some? && ValidAppTransition(env, m.params, m.current.state.value, s, actor)
  }

  lemma MachineReplaces(env: Env, m: Machine, a: State, p: Index, b: State, q: Index)
    requires Updatable(env, m, a, p) && Updatable(env, m, b, q) && m.idx < |m.params.parts|
    ensures var m1 := Stage(m, Signing, a);
            var m2 := m1.(staging := m1.staging.(sigs := m1.staging.sigs[m.idx := Some(env.sign(m.params.parts[m.idx], a))]));
            var m3 := m.(staging := EMPTY_TX);
            && Apply(env, m, Update(a, p)) == Some(m1) && Apply(env, m1, Sign) == Some(m2)
            && Apply(env, m2, DiscardUpdate) == Some(m3) && Apply(env, m3, Update(b, q)) == Some(Stage(m, Signing, b))
  {
  }

  /** Persisting the four operations: the slot of the first signature stays in the store. */
  lemma StoreReplaces(env: Env, bk: Backend, s: Stored, a: State, p: Index, b: State, q: Index)
    requires StoredInv(bk, s) && FixedLengthSigner(env) && s.src.m.idx < |s.src.m.params.parts|
    requires Updatable(env, s.src.m, a, p) && Updatable(env, s.src.m, b, q)
    requires WireOp(bk, s.src.m.params, Update(a, p)) && WireOp(bk, s.src.m.params, Update(b, q))
    ensures var after, m := Restore.Run(env, s, Replacing(a, p, b, q)), s.src.m;
            && StoredInv(bk, after) && after.src.m == Stage(m, Signing, b)
            && after.slots[m.idx] == env.sign(m.params.parts[m.idx], a)
  {
    var m := s.src.m;
    MachineReplaces(env, m, a, p, b, q);
    var s1 := Restore.Step(env, s, Own(Update(a, p)));
    OwnStepKeepsInv(env, bk, s, Update(a, p));
    var s2 := Restore.Step(env, s1, Own(Sign));
    SignedSlot(env, bk, s1, a);
    var s3 := Restore.Step(env, s2, Own(DiscardUpdate));
    OwnStepKeepsInv(env, bk, s2, DiscardUpdate);
    StagedSlots(env, s2, DiscardUpdate, 0);
    OwnStepKeepsInv(env, bk, s3, Update(b, q));
    StagedSlots(env, s3, Update(b, q), 0);
    RunFour(env, s, Replacing(a, p, b, q), s1, s2, s3);
  }

  lemma SignedSlot(env: Env, bk: Backend, s: Stored, a: State)
    requires StoredInv(bk, s) && FixedLengthSigner(env)
    requires s.src.m.phase == Signing && s.src.m.staging == NewTx(s.src.m, a) && s.src.m.idx < |s.src.m.params.parts|
    ensures var s2, m := Restore.Step(env, s, Own(Sign)), s.src.m;
            StoredInv(bk, s2) && s2.slots[m.idx] == env.sign(m.params.parts[m.idx], a)
  {
    OwnStepKeepsInv(env, bk, s, Sign);
  }

  /** From every stored channel that can be updated: after an update that is signed and discarded, and a second
      one, the restored own slot holds the signature on the discarded state, next to the second state. */
  lemma SignatureOnDroppedState(env: Env, bk: Backend, s: Stored, a: State, p: Index, b: State, q: Index, it: Iter)
    requires StoredInv(bk, s) && FixedLengthSigner(env) && s.src.m.idx < |s.src.m.params.parts|
    requires Updatable(env, s.src.m, a, p) && Updatable(env, s.src.m, b, q)
    requires WireOp(bk, s.src.m.params, Update(a, p)) && WireOp(bk, s.src.m.params, Update(b, q))
    requires var after := Restore.Run(env, s, Replacing(a, p, b, q)); Lists(it, after.data, WithPrefix(after.data, s.src.m.params.id))
    ensures var r, m := DecodeChannel(WireDecoders(bk), it.values), s.src.m;
            && r.Some? && m.idx < |r.value.sigs| && r.value.stagingState == Some(b)
            && r.value.sigs[m.idx] == Some(env.sign(m.params.parts[m.idx], a))
            && MachineSlot(Restore.Run(env, s, Replacing(a, p, b, q)).src.m, m.idx) == None
  {
    StoreReplaces(env, bk, s, a, p, b, q);
    SlotFromStore(bk, Restore.Run(env, s, Replacing(a, p, b, q)), it, s.src.m.idx);
  }

  // ----- one concrete run

  function Filled(n: nat, b: byte): (r: bytes)
    ensures |r| == n && forall i :: 0 <= i < n ==> r[i] == b
  {
    seq(n, i => b)
  }

  /** Two participants, one asset, no app; a signature shows whether the state is final. */
  function SampleParams(): Params {
    Params(Filled(ID_LEN, 7), 1, [Filled(ADDRESS_LEN, 1), Filled(ADDRESS_LEN, 2)], NoApp, 0, true, false)
  }

  function SampleState(version: nat, isFinal: bool): State {
    State(SampleParams().id, version, NoApp, Allocation([Filled(ADDRESS_LEN, 3)], [[5, 5]], []), [], isFinal)
  }

  function SampleSign(a: Address, s: State): Sig {
    Filled(65, if s.isFinal then 1 else 0)
  }

  function SampleEnv(): Env {
    Env((a, s) => SampleSign(a, s), (a, s, sig) => sig == SampleSign(a, s), (p, s) => true, (p, s, t, i) => true)
  }

  function SampleBackend(): Backend {
    Backend((d, parts, app, nonce, ledger, virtual) => Filled(ID_LEN, 7), (app, s) => Codec.Got([], s))
  }

  function SampleSource(): Source {
    Source(NewMachine(SampleParams(), 0), SampleParams().parts, None)
  }

  /** The machine after the opening. */
  function SampleOpen(): Machine {
    var tx := Transaction(Some(SampleState(0, false)), [Some(Filled(65, 0)), Some(Filled(65, 0))]);
    Machine(Acting, 0, SampleParams(), EMPTY_TX, tx, [EMPTY_TX])
  }

  lemma SampleAllocation()
    ensures ValidAlloc(SampleState(0, false).alloc) && WireAllocation(SampleState(0, false).alloc)
  {
    assert Codec.BigBytes(5) == [5];
  }

  lemma SampleWire(version: nat, isFinal: bool)
    requires version < UINT64_SIZE
    ensures WireState(SampleBackend().decData, SampleState(version, isFinal))
  {
    SampleAllocation();
    forall rest: bytes
      ensures SampleBackend().decData(NoApp, [] + rest) == Codec.Got([], rest)
    {
      assert [] + rest == rest;
    }
  }

  lemma SampleSourceWire()
    ensures WireSource(SampleBackend(), SampleSource()) && FixedLengthSigner(SampleEnv())
  {
  }

  /** The five operations of the opening on the machine. */
  lemma SampleOpens()
    ensures Machines.Run(SampleEnv(), NewMachine(SampleParams(), 0), SampleOps()) == SampleOpen()
  {
    var env, m0, s0, sig := SampleEnv(), NewMachine(SampleParams(), 0), SampleState(0, false), Some(Filled(65, 0));
    SampleAllocation();
    assert NewState(SampleParams(), s0.alloc, []) == Some(s0);
    var m1 := Stage(m0, InitSigning, s0);
    assert Machines.Step(env, m0, Init(s0.alloc, [])) == m1;
    var m2 := m1.(staging := Transaction(Some(s0), [sig, None]));
    assert Machines.Step(env, m1, Sign) == m2 by {
      assert m1.staging.sigs[0 := sig] == [sig, None];
    }
    var m3 := m1.(staging := Transaction(Some(s0), [sig, sig]));
    assert Machines.Step(env, m2, AddSig(1, Filled(65, 0))) == m3 by {
      assert m2.staging.sigs[1 := sig] == [sig, sig];
    }
    var m4 := SampleOpen().(phase := Funding);
    assert Machines.Step(env, m3, EnableInit) == m4;
    assert Machines.Step(env, m4, SetFunded) == SampleOpen();
    var ops := SampleOps();
    MachineRunFive(env, m0, ops, m1, m2, m3, m4);
  }

  function SampleOps(): seq<Op> {
    [Init(SampleState(0, false).alloc, []), Sign, AddSig(1, Filled(65, 0)), EnableInit, SetFunded]
  }

  lemma MachineRunFive(env: Env, m: Machine, ops: seq<Op>, m1: Machine, m2: Machine, m3: Machine, m4: Machine)
    requires |ops| == 5 && Machines.Step(env, m, ops[0]) == m1 && Machines.Step(env, m1, ops[1]) == m2
    requires Machines.Step(env, m2, ops[2]) == m3 && Machines.Step(env, m3, ops[3]) == m4
    ensures Machines.Run(env, m, ops) == Machines.Step(env, m4, ops[4])
  {
    MachineRunNext(env, m, ops, 0);
    MachineRunNext(env, m, ops, 1);
    MachineRunNext(env, m, ops, 2);
    MachineRunNext(env, m, ops, 3);
    MachineRunNext(env, m, ops, 4);
    assert ops[..0] == [] && ops[..5] == ops;
  }

  lemma MachineRunNext(env: Env, m: Machine, ops: seq<Op>, k: nat)
    requires k < |ops|
    ensures Machines.Run(env, m, ops[..k + 1]) == Machines.Step(env, Machines.Run(env, m, ops[..k]), ops[k])
  {
    assert ops[..k + 1] == ops[..k] + [ops[k]];
    MachineRunSnoc(env, m, ops[..k], ops[k]);
  }

  function OwnEvents(ops: seq<Op>): (e: seq<Event>)
    ensures |e| == |ops|
  {
    seq(|ops|, i requires 0 <= i < |ops| => Own(ops[i]))
  }

  lemma {:induction false} OwnOpsOf(ops: seq<Op>)
    ensures OwnOps(OwnEvents(ops)) == ops
  {
    if ops != [] {
      OwnOpsOf(ops[..|ops| - 1]);
      assert OwnEvents(ops)[..|ops| - 1] == OwnEvents(ops[..|ops| - 1]);
    }
  }

  /** A channel is opened; a final update is staged, signed by the first participant and discarded; an ordinary
      update is staged. */
  function SampleRun(): seq<Event> {
    OwnEvents(SampleOps()) + Replacing(SampleState(1, true), 0, SampleState(1, false), 0)
  }

  ghost function SampleStored(): Stored {
    Restore.Run(SampleEnv(), Begin(map[], SampleSource()), SampleRun())
  }

  lemma SampleUpdatable(isFinal: bool)
    ensures Updatable(SampleEnv(), SampleOpen(), SampleState(1, isFinal), 0)
    ensures WireOp(SampleBackend(), SampleParams(), Update(SampleState(1, isFinal), 0))
  {
    SampleAllocation();
    SampleWire(1, isFinal);
  }

  /** The store after the opening. */
  lemma SampleBegun()
    ensures var s := Restore.Run(SampleEnv(), Begin(map[], SampleSource()), OwnEvents(SampleOps()));
            StoredInv(SampleBackend(), s) && s.src.m == SampleOpen()
  {
    var env, bk, begin, events := SampleEnv(), SampleBackend(), Begin(map[], SampleSource()), OwnEvents(SampleOps());
    SampleSourceWire();
    BeginInv(bk, map[], SampleSource());
    SampleAllocation();
    SampleWire(0, false);
    RunKeepsInv(env, bk, begin, events);
    StoredMachineRuns(env, begin, events);
    OwnOpsOf(SampleOps());
    SampleOpens();
  }

  lemma SampleReplaced(s: Stored) returns (it: Iter)
    requires StoredInv(SampleBackend(), s) && s.src.m == SampleOpen()
    ensures var after := Restore.Run(SampleEnv(), s, Replacing(SampleState(1, true), 0, SampleState(1, false), 0));
            && Lists(it, after.data, WithPrefix(after.data, SampleParams().id)) && MachineSlot(after.src.m, 0) == None
    ensures var r := DecodeChannel(WireDecoders(SampleBackend()), it.values);
            && r.Some? && |r.value.sigs| > 0 && r.value.stagingState == Some(SampleState(1, false))
            && r.value.sigs[0] == Some(SampleEnv().sign(SampleParams().parts[0], SampleState(1, true)))
  {
    var env, bk, a, b := SampleEnv(), SampleBackend(), SampleState(1, true), SampleState(1, false);
    SampleSourceWire();
    SampleUpdatable(true);
    SampleUpdatable(false);
    StoreReplaces(env, bk, s, a, 0, b, 0);
    it := StoredListing(bk, Restore.Run(env, s, Replacing(a, 0, b, 0)));
    SignatureOnDroppedState(env, bk, s, a, 0, b, 0, it);
  }

  lemma SampleSignatureDiffers(own: Address)
    ensures !SampleEnv().verify(own, SampleState(1, false), SampleEnv().sign(own, SampleState(1, true)))
  {
    assert Filled(65, 1)[0] != Filled(65, 0)[0];
  }

  /** A concrete run after which restoring is wrong: the restored own slot holds a signature that does not verify
      for the restored staged state, while the machine has no signature at all. */
  lemma SampleLeftover() returns (it: Iter)
    ensures Lists(it, SampleStored().data, WithPrefix(SampleStored().data, SampleParams().id))
    ensures var r, own := DecodeChannel(WireDecoders(SampleBackend()), it.values), SampleParams().parts[0];
            && r.Some? && |r.value.sigs| > 0 && r.value.stagingState == Some(SampleState(1, false))
            && r.value.sigs[0] == Some(SampleEnv().sign(own, SampleState(1, true)))
            && !SampleEnv().verify(own, SampleState(1, false), r.value.sigs[0].value)
            && MachineSlot(SampleStored().src.m, 0) == None
  {
    var env, begin, opening := SampleEnv(), Begin(map[], SampleSource()), OwnEvents(SampleOps());
    SampleBegun();
    StoredRunAppend(env, begin, opening, Replacing(SampleState(1, true), 0, SampleState(1, false), 0));
    it := SampleReplaced(Restore.Run(env, begin, opening));
    SampleSignatureDiffers(SampleParams().parts[0]);
  }

  // ----- the restored machine

  function PhaseOf(b: byte): Option<Phase> {
    if b > 11 then None
    else Some([InitActing, InitSigning, Funding, Acting, Signing, Final,
               Registering, Registered, Progressing, Progressed, Withdrawing, Withdrawn][b])
  }

  lemma PhaseOfRank(p: Phase)
    ensures PhaseOf(Rank(p)) == Some(p)
  {
  }

  /** restoreMachine: the history is not persisted, and an empty staging transaction comes back with empty slots. */
  function RestoredMachine(r: Restored, p: Phase): Machine {
    Machine(p, r.idx, r.params, Transaction(r.stagingState, r.sigs), r.current, [])
  }

  /** Empty slots without a state count as no transaction. */
  function Tidy(m: Machine): Machine {
    if m.staging.state.None? && (forall i :: 0 <= i < |m.staging.sigs| ==> m.staging.sigs[i].None?) then m.(staging := EMPTY_TX) else m
  }

  /** If nothing is left over, the restored machine keeps the signature invariant. */
  lemma RestoreKeepsSignatures(env: Env, r: Restored, s: Stored, progressed: set<State>)
    requires Matches(r, s) && s.stale == {} && SignatureInv(env, s.src.m, progressed)
    ensures PhaseOf(r.phase) == Some(s.src.m.phase)
    ensures SignatureInv(env, Tidy(RestoredMachine(r, s.src.m.phase)), progressed)
  {
    PhaseOfRank(s.src.m.phase);
    var m := s.src.m;
    assert forall i: nat :: i < |r.sigs| ==> r.sigs[i] == MachineSlot(m, i);
    if m.staging != EMPTY_TX {
      assert r.sigs == m.staging.sigs;
    }
  }

  /** In every run from a new machine that leaves nothing behind, signing carries on correctly after a restore. */
  lemma RestoredSignaturesValid(env: Env, bk: Backend, data: Data, src: Source, events: seq<Event>, it: Iter)
    requires Lawful(env) && FixedLengthSigner(env) && WireSource(bk, src) && WithPrefix(data, src.m.params.id) == {}
    requires src.m == NewMachine(src.m.params, src.m.idx) && WireRun(bk, src.m.params, events)
    requires var s := Restore.Run(env, Begin(data, src), events); Lists(it, s.data, WithPrefix(s.data, src.m.params.id))
    requires forall i: nat :: !LeftOver(env, Begin(data, src), events, i)
    ensures var m, r := Machines.Run(env, src.m, OwnOps(events)), DecodeChannel(WireDecoders(bk), it.values);
            && r.Some? && PhaseOf(r.value.phase) == Some(m.phase)
            && SignatureInv(env, Tidy(RestoredMachine(r.value, m.phase)), ProgressedStates(OwnOps(events)))
  {
    var s := Restore.Run(env, Begin(data, src), events);
    RestoreRefines(env, bk, data, src, events, it);
    forall i: nat
      ensures i !in s.stale
    {
      StaleExactly(env, Begin(data, src), events, i);
    }
    SignaturesValidOnEveryRun(env, src.m.params, src.m.idx, OwnOps(events));
    RestoreKeepsSignatures(env, DecodeChannel(WireDecoders(bk), it.values).value, s, ProgressedStates(OwnOps(events)));
  }

  lemma SignKeepsSlot(env: Env, m: Machine)
    requires IsSigning(m.phase) && m.staging.state.Some? && m.idx < |m.params.parts|
    requires m.idx < |m.staging.sigs| && m.staging.sigs[m.idx].Some?
    ensures Apply(env, m, Sign) == Some(m)
  {
  }

  lemma SignFillsSlot(env: Env, m: Machine)
    requires IsSigning(m.phase) && m.staging.state.Some? && m.idx < |m.params.parts|
    requires m.idx < |m.staging.sigs| && m.staging.sigs[m.idx].None?
    ensures Apply(env, m, Sign).Some?
    ensures MachineSlot(Apply(env, m, Sign).value, m.idx) == Some(env.sign(m.params.parts[m.idx], m.staging.state.value))
  {
  }

  lemma StaleSlotEmpty(bk: Backend, s: Stored, i: nat)
    requires StoredInv(bk, s) && i in s.stale && i < |s.slots|
    ensures MachineSlot(s.src.m, i) == None && s.slots[i] != []
  {
    SlotValuesWire(bk, s.src.m);
    assert SlotValues(s.src.m)[i] == SlotValue(s.src.m.staging, i);
  }

  /** With a left-over own slot, Sig on the restored machine hands out the left-over signature, where the machine
      itself would sign the staged state. */
  lemma LeftoverIsHandedOut(env: Env, bk: Backend, s: Stored, it: Iter)
    requires StoredInv(bk, s) && Lists(it, s.data, WithPrefix(s.data, s.src.m.params.id))
    requires IsSigning(s.src.m.phase) && s.src.m.staging.state.Some? && s.src.m.idx < |s.src.m.params.parts|
    requires s.src.m.idx in s.stale
    ensures var m, r := s.src.m, DecodeChannel(WireDecoders(bk), it.values);
            && r.Some? && var back := RestoredMachine(r.value, m.phase);
               && Apply(env, back, Sign) == Some(back) && MachineSlot(back, m.idx) == SlotSig(s.slots[m.idx]) && s.slots[m.idx] != []
               && Apply(env, m, Sign).Some? && MachineSlot(m, m.idx) == None
               && MachineSlot(Apply(env, m, Sign).value, m.idx) == Some(env.sign(m.params.parts[m.idx], m.staging.state.value))
  {
    var m := s.src.m;
    StoredRestores(bk, s, it);
    SlotFromStore(bk, s, it, m.idx);
    StaleSlotEmpty(bk, s, m.idx);
    SignFillsSlot(env, m);
    SignKeepsSlot(env, RestoredMachine(DecodeChannel(WireDecoders(bk), it.values).value, m.phase));
  }

  // ----- damaged slots

  /** The table with another value under the key of a slot holds the channel with that slot. */
  lemma HoldsDamaged(data: Data, src: Source, slots: seq<bytes>, i: nat, v: bytes)
    requires Holds(data, src, slots) && i < |slots|
    ensures Holds(data[FieldKey(src.m.params.id, SigKey(i, |slots|)) := v], src, slots[i := v])
  {
    var id, n := src.m.params.id, |slots|;
    var key := FieldKey(id, SigKey(i, n));
    var after, damaged := data[key := v], slots[i := v];
    SigKeyPosition(n, i);
    forall x: nat | x < n + 7
      ensures var k := FieldKey(id, ChannelKeys(n)[x]); k in after && after[k] == Values(src, damaged)[x]
    {
      assert FieldKey(id, ChannelKeys(n)[x]) in data;
      ValuesAt(src, slots, x);
      ValuesAt(src, damaged, x);
      if x != i + 6 {
        DistinctFieldKeys(id, n, x, i + 6);
      }
    }
    forall k | k in WithPrefix(after, id)
      ensures k in KeySet(id, n)
    {
      if k == key {
        assert k == FieldKey(id, ChannelKeys(n)[i + 6]);
      } else {
        assert k in WithPrefix(data, id);
      }
    }
    HoldsFields(after, src, damaged);
  }

  /** A stored slot that is cut short, next to a staged state, is restored as no signature and without error. */
  lemma DamagedSlotHidden(bk: Backend, data: Data, src: Source, slots: seq<bytes>, i: nat, it: Iter)
    requires WireSource(bk, src) && Holds(data, src, slots) && src.m.staging.state.Some?
    requires i < |slots| && 0 < |slots[i]| < SparseSigs.SIG_LEN && Lists(it, data, WithPrefix(data, src.m.params.id))
    ensures var r := DecodeChannel(WireDecoders(bk), it.values);
            r.Some? && r.value.stagingState == src.m.staging.state && |r.value.sigs| == |slots| && r.value.sigs[i] == None
  {
    SortedValues(data, src, slots, it);
    ShortSlotHidden(bk, src, slots, i);
  }

  /** A listing of what a table holds of a channel. */
  ghost function HoldsListing(data: Data, src: Source, slots: seq<bytes>): (it: Iter)
    requires Holds(data, src, slots)
    ensures Lists(it, data, WithPrefix(data, src.m.params.id))
  {
    OrderedKeysEnumerate(src.m.params.id, |slots|);
    Iter(OrderedKeys(src.m.params.id, |slots|), Values(src, slots), 0)
  }

  function SampleStaged(): Source {
    SampleSource().(m := Stage(SampleOpen(), Signing, SampleState(1, false)))
  }

  lemma SampleStagedWire()
    ensures WireSource(SampleBackend(), SampleStaged())
  {
    SampleSourceWire();
    SampleWire(0, false);
    SampleWire(1, false);
  }

  /** The table of a created channel with one slot cut short. */
  function Damaged(src: Source, i: nat, v: bytes): Data {
    match Created(map[], src)
    case None => map[]
    case Some(data) => data[FieldKey(src.m.params.id, SigKey(i, |src.m.params.parts|)) := v]
  }

  lemma DamagedHolds(bk: Backend, src: Source, i: nat, v: bytes)
    requires WireSource(bk, src) && i < |src.m.params.parts|
    ensures Created(map[], src).Some? && Holds(Damaged(src, i, v), src, SlotValues(src.m)[i := v])
  {
    CreatedHolds(bk, map[], src);
    HoldsDamaged(Created(map[], src).value, src, SlotValues(src.m), i, v);
  }

  lemma DamagedRestores(bk: Backend, src: Source, i: nat, v: bytes) returns (it: Iter)
    requires WireSource(bk, src) && i < |src.m.params.parts| && src.m.staging.state.Some? && 0 < |v| < SparseSigs.SIG_LEN
    ensures Created(map[], src).Some? && Lists(it, Damaged(src, i, v), WithPrefix(Damaged(src, i, v), src.m.params.id))
    ensures var r := DecodeChannel(WireDecoders(bk), it.values);
            r.Some? && r.value.stagingState == src.m.staging.state && i < |r.value.sigs| && r.value.sigs[i] == None
  {
    var slots := SlotValues(src.m)[i := v];
    DamagedHolds(bk, src, i, v);
    it := HoldsListing(Damaged(src, i, v), src, slots);
    DamagedSlotHidden(bk, Damaged(src, i, v), src, slots, i, it);
  }

  /** A concrete store, written by creating the channel and cutting one slot short, that restores without error. */
  lemma SampleFailedSlot() returns (it: Iter)
    ensures Created(map[], SampleStaged()).Some?
    ensures Lists(it, Damaged(SampleStaged(), 0, [9]), WithPrefix(Damaged(SampleStaged(), 0, [9]), SampleStaged().m.params.id))
    ensures var r := DecodeChannel(WireDecoders(SampleBackend()), it.values);
            r.Some? && |r.value.sigs| > 0 && r.value.sigs[0] == None && r.value.stagingState == SampleStaged().m.staging.state
  {
    SampleStagedWire();
    it := DamagedRestores(SampleBackend(), SampleStaged(), 0, [9]);
  }

  // ----- damaged slots of one channel among several

  /** The values of a stored channel as an iteration sees them. */
  lemma StoredChannelValues(bk: Backend, src: Source, slots: seq<bytes>)
    requires WireSource(bk, src) && |slots| == |src.m.params.parts|
    ensures var d, vs := WireDecoders(bk), Values(src, slots);
            && Delivered(d, vs) && SlotsOf(d, vs) == slots
            && (StateOf(d, vs) == [] <==> src.m.staging.state.None?)
            && (ErrorPending(d, vs) <==> src.m.staging.state.None? && SlotsError(d, slots))
  {
    var vs := Values(src, slots);
    assert vs + [] == vs;
    ValuesSplit(src, slots, []);
    WireDecodesHead(bk, src);
    StagedStateRestored(bk.decData, src.m.staging.state);
    if src.m.staging.state.Some? {
      StateNotEmpty(bk, src.m.staging.state.value);
    }
    ValuesDeliver(WireDecoders(bk), src, slots);
  }

  lemma ValuesDeliver(d: Decoders, src: Source, slots: seq<bytes>)
    requires DecodesHead(d, src) && |slots| == |src.m.params.parts|
    requires DecodeOptional(d.state, Value(EncStagedState(src.m.staging.state))).Some?
    ensures var vs := Values(src, slots);
            Delivered(d, vs) && SlotsOf(d, vs) == slots && StateOf(d, vs) == Value(EncStagedState(src.m.staging.state))
  {
    var vs := Values(src, slots);
    assert vs + [] == vs;
    ValuesSplit(src, slots, []);
    HeadRestored(d, src, vs);
  }

  /** Without a staged state a failed last slot is an error if its channel is the last one, and goes unnoticed if
      any other stored channel without that fault is restored after it. */
  lemma UnnoticedAmongStored(bk: Backend, a: Source, slots: seq<bytes>, b: Source, good: seq<bytes>)
    requires WireSource(bk, a) && |slots| == |a.m.params.parts| && WireSource(bk, b) && |good| == |b.m.params.parts|
    requires a.m.staging.state.None? && SlotsError(WireDecoders(bk), slots) && !SlotsError(WireDecoders(bk), good)
    ensures var d, va, vb := WireDecoders(bk), Values(a, slots), Values(b, good);
            && !IterationOk(d, [va]) && IterationOk(d, [va, vb]) && !IterationOk(d, [vb, va])
  {
    StoredChannelValues(bk, a, slots);
    StoredChannelValues(bk, b, good);
    TwoChannels(WireDecoders(bk), Values(a, slots), Values(b, good));
  }

  lemma TwoChannels(d: Decoders, a: seq<bytes>, b: seq<bytes>)
    requires Delivered(d, a) && ErrorPending(d, a) && Delivered(d, b) && !ErrorPending(d, b)
    ensures !IterationOk(d, [a]) && IterationOk(d, [a, b]) && !IterationOk(d, [b, a])
  {
    assert [a][|[a]| - 1] == a && [a, b][|[a, b]| - 1] == b && [b, a][|[b, a]| - 1] == a;
  }

  /** Concretely: a channel without staged state whose first slot is cut short, alone and followed by itself without
      the fault. */
  lemma SampleUnnoticed()
    ensures var d, src := WireDecoders(SampleBackend()), SampleSource().(m := SampleOpen());
            var bad, good := Values(src, [[9], []]), Values(src, [[], []]);
            !IterationOk(d, [bad]) && IterationOk(d, [bad, good]) && AnyFails(d, [[9], []])
  {
    var bk, src := SampleBackend(), SampleSource().(m := SampleOpen());
    SampleSourceWire();
    SampleWire(0, false);
    ShortSlotFails(bk, [9]);
    assert [[9], []][0] == [9] && IsLast([[9], []], 0);
    ErrorIsLastSlot(WireDecoders(bk), [[9], []], 0);
    var empty: seq<bytes> := [[], []];
    assert !SlotsError(WireDecoders(bk), empty[..1]) by {
      assert empty[..1][..0] == [];
    }
    UnnoticedAmongStored(bk, src, [[9], []], src, [[], []]);
  }
}

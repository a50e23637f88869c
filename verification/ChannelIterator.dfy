/** Reading channels back step by step (channel/persistence/keyvalue/restorer.go). */
module ChannelIterators {
  import opened Base
  import opened States
  import opened Machines
  import opened Codec
  import opened Wire
  import opened Store
  import opened Persistence

  /** The outcome of decodeNext. An Incomplete value was stored although decodeNext reports an error;
      Panics is the access to a missing iterator. */
  datatype Outcome<T> = Read(value: T) | Incomplete(value: T) | Empty | Stop | Panics

  datatype Verdict = More | Done | Crash

  predicate HasNext(it: Iter) {
    it.next < |it.values|
  }

  /** The iterators from the first that still has a value. */
  function Skip(its: seq<Iter>): (r: seq<Iter>)
    ensures r != [] ==> HasNext(r[0])
  {
    if its == [] || HasNext(its[0]) then its else Skip(its[1..])
  }

  /** The iterators after k values of the first were read. */
  function After(its: seq<Iter>, k: nat): (r: seq<Iter>)
    requires its != []
    ensures |r| == |its| && r[0] == its[0].(next := its[0].next + k) && r[1..] == its[1..]
  {
    its[0 := its[0].(next := its[0].next + k)]
  }

  /** The values the first iterator has left. */
  function Left(its: seq<Iter>): seq<bytes>
    requires its != [] && HasNext(its[0])
  {
    its[0].values[its[0].next..]
  }

  lemma LeftAfter(its: seq<Iter>, k: nat)
    requires its != [] && its[0].next + k < |its[0].values|
    ensures Left(After(its, k)) == Left(its)[k..]
  {
  }

  lemma SlotStep(d: Decoders, vs: seq<bytes>, i: nat)
    requires i < |vs|
    ensures DecodedSlots(d, vs[..i + 1]) == DecodedSlots(d, vs[..i]) + [DecodedSlot(d, vs[i])]
    ensures SlotsError(d, vs[..i + 1]) ==
            if vs[i] == [] then SlotsError(d, vs[..i]) else DecodeWhole(d.sig, vs[i]).None?
  {
    assert vs[..i + 1][..i] == vs[..i];
  }

  /** Where reading the signature slots stands. A slot at which the first iterator ends stays empty and sets the
      error; without an iterator the source crashes. */
  datatype Reading = Reading(its: seq<Iter>, err: bool, sigs: seq<Option<Sig>>, crashed: bool)

  function ReadSlot(d: Decoders, r: Reading): Reading {
    if r.crashed || r.its == [] then r.(crashed := true)
    else if !HasNext(r.its[0]) then r.(its := r.its[1..], err := true, sigs := r.sigs + [None])
    else
      var v := r.its[0].values[r.its[0].next];
      Reading(After(r.its, 1), if v == [] then r.err else DecodeWhole(d.sig, v).None?, r.sigs + [DecodedSlot(d, v)], false)
  }

  function ReadSlots(d: Decoders, r: Reading, n: nat): Reading {
    if n == 0 then r else ReadSlot(d, ReadSlots(d, r, n - 1))
  }

  lemma {:induction false} ReadSlotsOn(d: Decoders, r: Reading, a: nat, b: nat)
    ensures ReadSlots(d, r, a + b) == ReadSlots(d, ReadSlots(d, r, a), b)
  {
    if b > 0 {
      ReadSlotsOn(d, r, a, b - 1);
    }
  }

  /** With enough values the slots are those of the first iterator. */
  lemma {:induction false} EnoughSlots(d: Decoders, its: seq<Iter>, sigs: seq<Option<Sig>>, n: nat)
    requires its != [] && HasNext(its[0]) && its[0].next + n <= |its[0].values|
    ensures ReadSlots(d, Reading(its, false, sigs, false), n) ==
            Reading(After(its, n), SlotsError(d, Left(its)[..n]), sigs + DecodedSlots(d, Left(its)[..n]), false)
  {
    if n == 0 {
      assert After(its, 0) == its && sigs + [] == sigs;
    } else {
      EnoughSlots(d, its, sigs, n - 1);
      SlotStep(d, Left(its), n - 1);
      assert After(After(its, n - 1), 1) == After(its, n);
      assert sigs + DecodedSlots(d, Left(its)[..n - 1]) + [DecodedSlot(d, Left(its)[n - 1])] == sigs + DecodedSlots(d, Left(its)[..n]);
    }
  }

  /** Where the values of a channel run short, one slot is skipped with an error and the rest are read from the
      next iterator, as if its values were slots. */
  lemma ShortSlots(d: Decoders, its: seq<Iter>, n: nat)
    requires its != [] && HasNext(its[0]) && |Left(its)| < n
    ensures ReadSlots(d, Reading(its, false, [], false), n) ==
            ReadSlots(d, Reading(its[1..], true, DecodedSlots(d, Left(its)) + [None], false), n - |Left(its)| - 1)
  {
    var m, start := |Left(its)|, Reading(its, false, [], false);
    EnoughSlots(d, its, [], m);
    assert Left(its)[..m] == Left(its) && [] + DecodedSlots(d, Left(its)) == DecodedSlots(d, Left(its));
    ReadEnds(d, start, m);
    ReadSlotsOn(d, start, m + 1, n - m - 1);
  }

  lemma ReadEnds(d: Decoders, r: Reading, m: nat)
    requires var f := ReadSlots(d, r, m); !f.crashed && f.its != [] && !HasNext(f.its[0])
    ensures var f := ReadSlots(d, r, m); ReadSlots(d, r, m + 1) == Reading(f.its[1..], true, f.sigs + [None], false)
  {
  }

  ghost predicate Outcomes<T>(dec: bytes -> Decoded<T>, v: bytes, allowEmpty: bool, was: bool, r: Outcome<T>, err: bool) {
    if v == [] then (r, err) == if allowEmpty then (Empty, was) else (Stop, true)
    else match dec(v)
      case Failed => r == Stop && err
      case Got(x, rest) => (r, err) == if rest == [] then (Read(x), false) else (Incomplete(x), true)
  }

  const NO_CHANNEL := Restored(Params([], 0, [], NoApp, 0, false, false), 0, 0, EMPTY_TX, None, [], [], None)

  class ChannelIterator {
    const decoders: Decoders
    var its: seq<Iter>
    var err: bool
    var ch: Restored

    constructor (decoders: Decoders, its: seq<Iter>)
      ensures this.decoders == decoders && this.its == its && !err
    {
      this.decoders, this.its, err, ch := decoders, its, false, NO_CHANNEL;
    }

    method RecoverFromEmptyIterator(allowEnd: bool) returns (ok: bool)
      requires its != []
      modifies this`its, this`err
      ensures its == old(its)[1..]
      ensures err == (old(err) || !allowEnd) && ok == (allowEnd && its != [])
    {
      its := its[1..];
      if !allowEnd {
        err := true;
        return false;
      }
      ok := its != [];
    }

    /** Reads one value: iterators that ended are skipped if that is allowed, and the value is decoded whole. */
    method DecodeNext<T>(dec: bytes -> Decoded<T>, allowEnd: bool, allowEmpty: bool) returns (r: Outcome<T>)
      modifies this`its, this`err
      ensures old(its) == [] ==> r == Panics && its == [] && err == old(err)
      ensures old(its) != [] && !allowEnd && !HasNext(old(its)[0]) ==> r == Stop && err && its == old(its)[1..]
      ensures old(its) != [] && (allowEnd || HasNext(old(its)[0])) ==>
                var s := Skip(old(its));
                if s == [] then r == Stop && its == [] && err == old(err)
                else its == After(s, 1) && Outcomes(dec, s[0].values[s[0].next], allowEmpty, old(err), r, err)
    {
      if its == [] {
        return Panics;
      }
      while !HasNext(its[0])
        invariant its != [] && Skip(its) == Skip(old(its)) && err == old(err)
        invariant allowEnd || its == old(its)
        decreases |its|
      {
        var ok := RecoverFromEmptyIterator(allowEnd);
        if !ok {
          return Stop;
        }
      }
      var v := its[0].values[its[0].next];
      its := After(its, 1);
      if v == [] {
        if allowEmpty {
          return Empty;
        }
        err := true;
        return Stop;
      }
      match dec(v) {
        case Failed =>
          err := true;
          r := Stop;
        case Got(x, rest) =>
          err := rest != [];
          r := if rest == [] then Read(x) else Incomplete(x);
      }
    }

    /** Reads three values that must be there and not be empty. */
    method DecodeThree<A, B, C>(da: bytes -> Decoded<A>, db: bytes -> Decoded<B>, dc: bytes -> Decoded<C>, allowEnd: bool)
      returns (r: Verdict, a: Option<A>, b: Option<B>, c: Option<C>)
      requires its != []
      modifies this`its, this`err
      ensures r == More ==> a.Some? && b.Some? && c.Some? && its != []
      ensures allowEnd && Skip(old(its)) == [] ==> r == Done && its == [] && err == old(err)
      ensures Skip(old(its)) != [] && (allowEnd || HasNext(old(its)[0])) && |Left(Skip(old(its)))| >= 3 ==>
                var s := Skip(old(its));
                var wa, wb, wc := DecodeWhole(da, Left(s)[0]), DecodeWhole(db, Left(s)[1]), DecodeWhole(dc, Left(s)[2]);
                if wa.Some? && wb.Some? && wc.Some? then r == More && !err && its == After(s, 3) && (a, b, c) == (wa, wb, wc)
                else r == Done && err
      ensures Skip(old(its)) != [] && (allowEnd || HasNext(old(its)[0])) && |Left(Skip(old(its)))| < 3 ==> r == Done && err
      ensures !allowEnd && !HasNext(old(its)[0]) ==> r == Done && err
    {
      a, b, c := None, None, None;
      var x := DecodeNext(da, allowEnd, false);
      if !x.Read? { return Stopped(x), a, b, c; }
      var y := DecodeNext(db, false, false);
      if !y.Read? { return Stopped(y), a, b, c; }
      var z := DecodeNext(dc, false, false);
      if !z.Read? { return Stopped(z), a, b, c; }
      r, a, b, c := More, Some(x.value), Some(y.value), Some(z.value);
    }

    /** Reads the fields in front of the signatures. */
    method DecodeHeadFields() returns (r: Verdict)
      requires its != []
      modifies this
      ensures Skip(old(its)) == [] ==> r == Done && its == [] && err == old(err)
      ensures Skip(old(its)) != [] && |Left(Skip(old(its)))| >= 6 ==>
                var s := Skip(old(its));
                match DecodeHead(decoders, Left(s))
                case None => r == Done && err
                case Some(h) => && r == More && !err && its == After(s, 6)
                                && ch == Restored(h.params, h.idx, h.phase, h.current, None, [], h.peers, h.parent)
      ensures Skip(old(its)) != [] && |Left(Skip(old(its)))| < 6 ==> r == Done && err
    {
      ghost var s := Skip(its);
      ch := NO_CHANNEL;
      var current, idx, params;
      r, current, idx, params := DecodeThree(decoders.tx, decoders.idx, decoders.params, true);
      if r != More { return; }
      ch := ch.(current := current.value, idx := idx.value, params := params.value);
      var parent, peers, phase;
      if s != [] && |Left(s)| > 3 {
        LeftAfter(s, 3);
        assert its == After(s, 3) && Skip(its) == its && After(After(s, 3), 3) == After(s, 6);
      }
      r, parent, peers, phase := DecodeThree(decoders.parent, decoders.peers, decoders.phase, false);
      if r != More { return; }
      ch := ch.(parent := parent.value, peers := peers.value, phase := phase.value);
    }

    method DecodeSlot(i: nat) returns (crashed: bool)
      requires i < |ch.sigs| && ch.sigs[i].None?
      modifies this
      ensures |ch.sigs| == |old(ch).sigs| && ch == old(ch).(sigs := old(ch).sigs[i := ch.sigs[i]])
      ensures ReadSlot(decoders, Reading(old(its), old(err), old(ch).sigs[..i], false)) ==
              Reading(its, err, if crashed then ch.sigs[..i] else ch.sigs[..i + 1], crashed)
    {
      var o := DecodeNext(decoders.sig, false, true);
      crashed := o.Panics?;
      if o.Read? || o.Incomplete? {
        ch := ch.(sigs := ch.sigs[i := Some(o.value)]);
      }
      assert ch.sigs[..i + 1] == old(ch).sigs[..i] + [ch.sigs[i]];
    }

    /** Reads one value per signature slot. Whether decoding a slot succeeds is not looked at. */
    method DecodeSlots(n: nat) returns (r: Verdict)
      requires |ch.sigs| == n
      modifies this
      ensures ch == old(ch).(sigs := ch.sigs)
      ensures var f := ReadSlots(decoders, Reading(old(its), old(err), [], false), n);
              r == (if f.crashed then Crash else Done) && its == f.its && err == f.err && (r == Done ==> ch.sigs == f.sigs)
    {
      ghost var start := Reading(its, err, [], false);
      ch := ch.(sigs := seq(n, i => None));
      for i := 0 to n
        invariant ch == old(ch).(sigs := ch.sigs) && |ch.sigs| == n
        invariant forall k :: i <= k < n ==> ch.sigs[k] == None
        invariant ReadSlots(decoders, start, i) == Reading(its, err, ch.sigs[..i], false)
      {
        var crashed := DecodeSlot(i);
        if crashed {
          CrashStays(decoders, start, i + 1, n);
          return Crash;
        }
      }
      assert ch.sigs[..n] == ch.sigs;
      r := Done;
    }

    /** Reads the signature slots and the staged state. */
    method DecodeStagingFields() returns (r: Verdict)
      modifies this
      ensures ch == old(ch).(sigs := ch.sigs, stagingState := ch.stagingState)
      ensures var f := ReadSlots(decoders, Reading(old(its), old(err), [], false), |ch.params.parts|);
              if f.crashed || f.its == [] then r == Crash
              else if !HasNext(f.its[0]) then r == Done && err
              else
                var v := f.its[0].values[f.its[0].next];
                var o := DecodeOptional(decoders.state, v);
                && its == After(f.its, 1) && r == (if o.Some? then More else Done)
                && err == (if v == [] then f.err else o.None?)
                && (r == More ==> ch.sigs == f.sigs && ch.stagingState == if v == [] then old(ch).stagingState else o.value)
    {
      var n := |ch.params.parts|;
      ch := ch.(sigs := seq(n, i => None));
      r := DecodeSlots(n);
      if r == Crash {
        return;
      }
      var state := DecodeNext(decoders.state, false, true);
      if state.Read? || state.Incomplete? {
        ch := ch.(stagingState := Some(state.value));
      }
      r := if state.Read? || state.Empty? then More else Stopped(state);
    }

    /** Decodes the next channel. The fields in front of the signatures must be there and decode. Reading the slots
        never stops the decoding, so a channel is handed out exactly if its staged state decodes; an error of the
        last slot that is not empty stays pending next to an empty staged state. */
    method Next() returns (r: Verdict)
      modifies this
      ensures Skip(old(its)) == [] ==> r == Done && its == [] && err == old(err)
      ensures Skip(old(its)) != [] ==>
                var s := Skip(old(its));
                var h := if |Left(s)| < 6 then None else DecodeHead(decoders, Left(s));
                if h.None? then r == Done && err
                else
                  var f := ReadSlots(decoders, Reading(After(s, 6), false, [], false), |h.value.params.parts|);
                  if f.crashed || f.its == [] then r == Crash
                  else if !HasNext(f.its[0]) then r == Done && err
                  else
                    var v := f.its[0].values[f.its[0].next];
                    var o := DecodeOptional(decoders.state, v);
                    && its == After(f.its, 1) && r == (if o.Some? then More else Done)
                    && err == (if v == [] then f.err else o.None?)
                    && (r == More ==> ch == HandedOut(h.value, f.sigs, o.value))
    {
      if its == [] {
        return Done;
      }
      r := DecodeHeadFields();
      if r != More {
        return;
      }
      r := DecodeStagingFields();
    }
  }

  function HandedOut(h: Head, sigs: seq<Option<Sig>>, state: Option<State>): Restored {
    Restored(h.params, h.idx, h.phase, h.current, state, sigs, h.peers, h.parent)
  }

  lemma {:induction false} CrashStays(d: Decoders, r: Reading, a: nat, n: nat)
    requires a <= n && ReadSlots(d, r, a).crashed
    ensures ReadSlots(d, r, n) == ReadSlots(d, r, a)
    decreases n
  {
    if a < n {
      CrashStays(d, r, a, n - 1);
    }
  }

  function Stopped<T>(o: Outcome<T>): Verdict {
    if o.Panics? then Crash else Done
  }

  // ----- one channel

  /** The slots of a channel of which the first iterator has all values. */
  lemma CompleteSlots(d: Decoders, s: seq<Iter>, n: nat)
    requires s != [] && HasNext(s[0]) && |Left(s)| >= n + 7
    ensures ReadSlots(d, Reading(After(s, 6), false, [], false), n) ==
            Reading(After(s, n + 6), SlotsError(d, Left(s)[6..n + 6]), DecodedSlots(d, Left(s)[6..n + 6]), false)
  {
    LeftAfter(s, 6);
    EnoughSlots(d, After(s, 6), [], n);
    assert Left(s)[6..][..n] == Left(s)[6..n + 6];
    assert After(After(s, 6), n) == After(s, n + 6);
    assert [] + DecodedSlots(d, Left(s)[6..n + 6]) == DecodedSlots(d, Left(s)[6..n + 6]);
  }

  /** A single iterator runs out or has given one value per slot. */
  lemma {:induction false} SingleRunsOut(d: Decoders, r: Reading, n: nat)
    requires |r.its| == 1 && r.its[0].next <= |r.its[0].values| && !r.crashed
    ensures var f := ReadSlots(d, r, n);
            f.crashed || f.its == [] || (f.its == After(r.its, n) && r.its[0].next + n <= |r.its[0].values|)
  {
    if n > 0 {
      SingleRunsOut(d, r, n - 1);
    }
  }

  /** Reading the slots from a single iterator: with too few values there is nothing left for the staged state. */
  lemma SingleChannel(d: Decoders, it: Iter, n: nat)
    requires it.next == 0 && |it.values| >= 6
    ensures var f := ReadSlots(d, Reading(After([it], 6), false, [], false), n);
            if |it.values| < n + 7 then f.crashed || f.its == [] || !HasNext(f.its[0])
            else f == Reading(After([it], n + 6), SlotsError(d, it.values[6..n + 6]), DecodedSlots(d, it.values[6..n + 6]), false)
  {
    if |it.values| < n + 7 {
      SingleRunsOut(d, Reading(After([it], 6), false, [], false), n);
    } else {
      assert Left([it]) == it.values;
      CompleteSlots(d, [it], n);
    }
  }

  lemma SingleDecodes(d: Decoders, it: Iter, h: Head)
    requires it.next == 0 && |it.values| >= 6 && DecodeHead(d, it.values) == Some(h)
    ensures var f := ReadSlots(d, Reading(After([it], 6), false, [], false), |h.params.parts|);
            if f.crashed || f.its == [] || !HasNext(f.its[0]) then DecodeChannel(d, it.values) == None
            else
              var v := f.its[0].values[f.its[0].next];
              var o := DecodeOptional(d.state, v);
              DecodeChannel(d, it.values) == if o.Some? && !(v == [] && f.err) then Some(HandedOut(h, f.sigs, o.value)) else None
  {
    SingleChannel(d, it, |h.params.parts|);
  }

  /** The values are those of one channel, head and all. */
  predicate IsChannel(d: Decoders, vs: seq<bytes>) {
    |vs| >= 6 && DecodeHead(d, vs).Some? && |vs| == |DecodeHead(d, vs).value.params.parts| + 7
  }

  /** There are values, but not those that a channel starts with. */
  predicate BadHead(d: Decoders, vs: seq<bytes>) {
    vs != [] && (|vs| < 6 || DecodeHead(d, vs).None?)
  }

  function SlotsOf(d: Decoders, vs: seq<bytes>): seq<bytes>
    requires IsChannel(d, vs)
  {
    vs[6..|vs| - 1]
  }

  function StateOf(d: Decoders, vs: seq<bytes>): bytes
    requires IsChannel(d, vs)
  {
    vs[|vs| - 1]
  }

  predicate StateDecodes(d: Decoders, vs: seq<bytes>)
    requires IsChannel(d, vs)
  {
    DecodeOptional(d.state, StateOf(d, vs)).Some?
  }

  /** The channel is handed out with an error pending. */
  predicate ErrorPending(d: Decoders, vs: seq<bytes>) {
    IsChannel(d, vs) && StateOf(d, vs) == [] && SlotsError(d, SlotsOf(d, vs))
  }

  function ChannelOf(d: Decoders, vs: seq<bytes>): Restored
    requires IsChannel(d, vs) && StateDecodes(d, vs)
  {
    HandedOut(DecodeHead(d, vs).value, DecodedSlots(d, SlotsOf(d, vs)), DecodeOptional(d.state, StateOf(d, vs)).value)
  }

  lemma DecodesIff(d: Decoders, vs: seq<bytes>)
    requires IsChannel(d, vs)
    ensures DecodeChannel(d, vs) ==
            if StateDecodes(d, vs) && !ErrorPending(d, vs) then Some(ChannelOf(d, vs)) else None
  {
  }

  // ----- iterating over several channels

  /** Each iterator has the values of one channel, or values that no channel starts with. */
  predicate Separate(d: Decoders, vss: seq<seq<bytes>>) {
    forall i :: 0 <= i < |vss| ==> IsChannel(d, vss[i]) || BadHead(d, vss[i])
  }

  /** Channel i is handed out. */
  predicate Delivered(d: Decoders, vs: seq<bytes>) {
    IsChannel(d, vs) && StateDecodes(d, vs)
  }

  predicate AllDelivered(d: Decoders, vss: seq<seq<bytes>>) {
    forall i :: 0 <= i < |vss| ==> Delivered(d, vss[i])
  }

  predicate PendingAtEnd(d: Decoders, vss: seq<seq<bytes>>) {
    vss != [] && ErrorPending(d, vss[|vss| - 1])
  }

  /** All channels are handed out and the last one leaves no error pending. */
  predicate IterationOk(d: Decoders, vss: seq<seq<bytes>>) {
    AllDelivered(d, vss) && !PendingAtEnd(d, vss)
  }

  /** The other channels are handed out, and the last one, if another, leaves no error pending. */
  predicate GoodElsewhere(d: Decoders, vss: seq<seq<bytes>>, k: nat) {
    (forall i :: 0 <= i < |vss| && i != k ==> Delivered(d, vss[i])) && (k != |vss| - 1 ==> !PendingAtEnd(d, vss))
  }

  /** A failed slot of channel k, in an otherwise good iteration, goes unnoticed exactly if the staged state of that
      channel decodes and it is not empty, or the last slot that is not empty decodes, or another channel follows. */
  lemma UnnoticedIff(d: Decoders, vss: seq<seq<bytes>>, k: nat)
    requires k < |vss| && IsChannel(d, vss[k]) && AnyFails(d, SlotsOf(d, vss[k])) && GoodElsewhere(d, vss, k)
    ensures IterationOk(d, vss) <==>
            StateDecodes(d, vss[k]) && (StateOf(d, vss[k]) != [] || LastDecodes(d, SlotsOf(d, vss[k])) || k < |vss| - 1)
  {
    var slots := SlotsOf(d, vss[k]);
    var i :| 0 <= i < |slots| && SlotFails(d, slots[i]);
    var last := SomeLast(slots, i);
    ErrorIsLastSlot(d, slots, last);
    forall x: nat | IsLast(slots, x)
      ensures x == last
    {
    }
  }

  /** The iterators hold these values and nothing of them was read yet. */
  predicate Fresh(its: seq<Iter>, vss: seq<seq<bytes>>) {
    |its| == |vss| && forall i :: 0 <= i < |its| ==> its[i].next == 0 && its[i].values == vss[i]
  }

  lemma FreshSkips(d: Decoders, its: seq<Iter>, vss: seq<seq<bytes>>, k: nat)
    requires Fresh(its, vss) && Separate(d, vss) && k <= |its|
    ensures Skip(its[k..]) == its[k..] && (k < |its| ==> HasNext(its[k]) && Left(its[k..]) == vss[k])
  {
    assert k < |its| ==> its[k..][0] == its[k];
  }

  lemma SkipRead(its: seq<Iter>, k: nat)
    requires its != [] && its[0].next + k == |its[0].values|
    ensures Skip(After(its, k)) == Skip(its[1..])
  {
  }

  /** Reading the slots of the channel that the first iterator holds. */
  lemma ChannelRead(d: Decoders, s: seq<Iter>, vs: seq<bytes>)
    requires s != [] && s[0].next == 0 && s[0].values == vs && IsChannel(d, vs)
    ensures ReadSlots(d, Reading(After(s, 6), false, [], false), |vs| - 7) ==
            Reading(After(s, |vs| - 1), SlotsError(d, SlotsOf(d, vs)), DecodedSlots(d, SlotsOf(d, vs)), false)
    ensures After(After(s, |vs| - 1), 1) == After(s, |vs|) && Skip(After(s, |vs|)) == Skip(s[1..])
  {
    assert Left(s) == vs;
    CompleteSlots(d, s, |vs| - 7);
    SkipRead(s, |vs|);
  }

  /** What Next makes of the values at the front. */
  ghost predicate NextIs(d: Decoders, vs: seq<bytes>, rest: seq<Iter>, r: Verdict, ch: Restored, err: bool, its: seq<Iter>) {
    if Delivered(d, vs) then r == More && ch == ChannelOf(d, vs) && err == ErrorPending(d, vs) && Skip(its) == Skip(rest)
    else r == Done && err
  }

  /** The next channel, whose values the first iterator holds, if there is one. */
  method NextChannel(it: ChannelIterator, ghost s: seq<Iter>, ghost vs: seq<bytes>) returns (r: Verdict)
    requires s == Skip(it.its)
    requires s != [] ==> s[0].next == 0 && s[0].values == vs && (IsChannel(it.decoders, vs) || BadHead(it.decoders, vs))
    modifies it
    ensures s == [] ==> r == Done && it.err == old(it.err)
    ensures s != [] ==> NextIs(it.decoders, vs, s[1..], r, it.ch, it.err, it.its)
  {
    assert s != [] ==> Left(s) == vs;
    if s != [] && IsChannel(it.decoders, vs) {
      ChannelRead(it.decoders, s, vs);
    }
    r := it.Next();
  }

  /** These are the first channels, each as it is handed out. */
  predicate Collected(d: Decoders, vss: seq<seq<bytes>>, r: seq<Restored>) {
    |r| <= |vss| && forall i :: 0 <= i < |r| ==> Delivered(d, vss[i]) && r[i] == ChannelOf(d, vss[i])
  }

  lemma CollectedSnoc(d: Decoders, vss: seq<seq<bytes>>, r: seq<Restored>)
    requires Collected(d, vss, r) && |r| < |vss| && Delivered(d, vss[|r|])
    ensures Collected(d, vss, r + [ChannelOf(d, vss[|r|])])
  {
  }

  lemma CollectedAll(d: Decoders, vss: seq<seq<bytes>>, r: seq<Restored>)
    requires Collected(d, vss, r)
    ensures |r| == |vss| ==> AllDelivered(d, vss)
    ensures |r| < |vss| && !Delivered(d, vss[|r|]) ==> !AllDelivered(d, vss)
  {
  }

  /** What the error says once n channels were handed out. */
  predicate ErrorAfter(d: Decoders, vss: seq<seq<bytes>>, n: nat, err: bool) {
    n <= |vss| && err == (n > 0 && ErrorPending(d, vss[n - 1]))
  }

  /** The iteration goes on, or all channels were handed out, or it stopped with an error. */
  ghost predicate Iterating(d: Decoders, vss: seq<seq<bytes>>, its: seq<Iter>, r: seq<Restored>, more: bool, now: seq<Iter>, err: bool) {
    && Collected(d, vss, r)
    && (more || |r| == |vss| ==> ErrorAfter(d, vss, |r|, err))
    && (more ==> |its| == |vss| && Skip(now) == its[|r|..])
    && (!more && |r| < |vss| ==> err && !Delivered(d, vss[|r|]))
  }

  lemma IteratedOne(d: Decoders, vss: seq<seq<bytes>>, its: seq<Iter>, r: seq<Restored>, v: Verdict, ch: Restored, err: bool, now: seq<Iter>)
    requires Fresh(its, vss) && Separate(d, vss) && Collected(d, vss, r) && |r| < |vss|
    requires NextIs(d, vss[|r|], its[|r|..][1..], v, ch, err, now)
    ensures Iterating(d, vss, its, if v == More then r + [ch] else r, v == More, now, err)
  {
    FreshSkips(d, its, vss, |r| + 1);
    assert its[|r|..][1..] == its[|r| + 1..];
    if v == More {
      CollectedSnoc(d, vss, r);
    }
  }

  /** The loop of the client over all channels of a peer, with Close at the end. */
  method Iterate(it: ChannelIterator, ghost vss: seq<seq<bytes>>) returns (r: seq<Restored>, ok: bool)
    requires !it.err && Fresh(it.its, vss) && Separate(it.decoders, vss)
    modifies it
    ensures ok <==> IterationOk(it.decoders, vss)
    ensures Collected(it.decoders, vss, r) && (|r| < |vss| ==> !Delivered(it.decoders, vss[|r|]))
  {
    r := [];
    ghost var its, d := it.its, it.decoders;
    FreshSkips(d, its, vss, 0);
    assert its[0..] == its;
    var more := true;
    while more
      invariant Iterating(d, vss, its, r, more, it.its, it.err)
      decreases |vss| - |r|, more
    {
      var next := NextChannel(it, its[|r|..], if |r| < |vss| then vss[|r|] else []);
      more := next == More;
      if |r| < |vss| {
        IteratedOne(d, vss, its, r, next, it.ch, it.err, it.its);
      }
      if more {
        r := r + [it.ch];
      }
    }
    CollectedAll(d, vss, r);
    ok := !it.err;
  }
}

/** The bit-masked encoding of signature lists with missing entries (wallet/sig.go). */
module SparseSigs {
  import opened Base
  import opened Codec

  /** Length of an encoded signature. */
  const SIG_LEN: nat := 65

  type Sig = bytes

  // ----- bits of a byte

  /** m >> j. */
  function ShiftRight(m: nat, j: nat): nat {
    if j == 0 then m else ShiftRight(m / 2, j - 1)
  }

  /** (m >> j) % 2 != 0. */
  predicate Bit(m: nat, j: nat) {
    ShiftRight(m, j) % 2 != 0
  }

  /** m | (1 << j). */
  function SetBit(m: nat, j: nat): nat {
    if j == 0 then (if m % 2 == 0 then m + 1 else m) else 2 * SetBit(m / 2, j - 1) + m % 2
  }

  /** The number with the given binary digits, least significant first. */
  function FromBits(bits: seq<bool>): nat {
    if bits == [] then 0 else (if bits[0] then 1 else 0) + 2 * FromBits(bits[1..])
  }

  function Power2(n: nat): nat {
    if n == 0 then 1 else 2 * Power2(n - 1)
  }

  lemma {:induction false} FromBitsBound(bits: seq<bool>)
    ensures FromBits(bits) < Power2(|bits|)
  {
    if bits != [] {
      FromBitsBound(bits[1..]);
    }
  }

  lemma {:induction false} BitOfBits(bits: seq<bool>, j: nat)
    requires j < |bits|
    ensures Bit(FromBits(bits), j) == bits[j]
  {
    Halves(if bits[0] then 1 else 0, FromBits(bits[1..]));
    if j > 0 {
      BitOfBits(bits[1..], j - 1);
      assert ShiftRight(FromBits(bits), j) == ShiftRight(FromBits(bits[1..]), j - 1);
    }
  }

  lemma Halves(b: nat, r: nat)
    requires b < 2
    ensures (b + 2 * r) / 2 == r && (b + 2 * r) % 2 == b
  {
  }

  lemma {:induction false} SetBitOfBits(bits: seq<bool>, j: nat)
    requires j < |bits|
    ensures SetBit(FromBits(bits), j) == FromBits(bits[j := true])
  {
    Halves(if bits[0] then 1 else 0, FromBits(bits[1..]));
    if j > 0 {
      SetBitOfBits(bits[1..], j - 1);
      assert bits[j := true][1..] == bits[1..][j - 1 := true];
    } else {
      assert bits[j := true][1..] == bits[1..];
    }
  }

  // ----- the mask

  predicate Present(sigs: seq<Option<Sig>>, i: nat) {
    i < |sigs| && sigs[i].Some?
  }

  /** Bit j of the k-th mask byte says whether signature 8k+j is present. */
  function MaskBits(sigs: seq<Option<Sig>>, k: nat): (bits: seq<bool>)
    ensures |bits| == 8 && forall j :: 0 <= j < 8 ==> bits[j] == Present(sigs, 8 * k + j)
  {
    seq(8, j requires 0 <= j => Present(sigs, 8 * k + j))
  }

  function MaskByte(sigs: seq<Option<Sig>>, k: nat): byte {
    FromBitsBound(MaskBits(sigs, k));
    assert Power2(8) == 256 by {
      assert Power2(4) == 16;
    }
    FromBits(MaskBits(sigs, k))
  }

  /** Number of mask bytes for n signatures: n/8 rounded up. */
  function MaskLen(n: nat): nat {
    (n + 7) / 8
  }

  function Mask(sigs: seq<Option<Sig>>): (m: bytes)
    ensures |m| == MaskLen(|sigs|)
  {
    seq(MaskLen(|sigs|), k requires 0 <= k => MaskByte(sigs, k))
  }

  /** Looking at one more signature sets at most its own bit. */
  lemma MaskStep(sigs: seq<Option<Sig>>, i: nat, k: nat)
    requires i < |sigs|
    ensures MaskByte(sigs[..i + 1], k) ==
            if k == i / 8 && sigs[i].Some? then SetBit(MaskByte(sigs[..i], k), i % 8) else MaskByte(sigs[..i], k)
  {
    var before, after := MaskBits(sigs[..i], k), MaskBits(sigs[..i + 1], k);
    forall j | 0 <= j < 8
      ensures after[j] == (before[j] || (8 * k + j == i && sigs[i].Some?))
    {
      assert after[j] == Present(sigs[..i + 1], 8 * k + j);
    }
    assert i == 8 * (i / 8) + i % 8;
    if k == i / 8 && sigs[i].Some? {
      assert after == before[i % 8 := true];
      SetBitOfBits(before, i % 8);
    } else {
      assert after == before;
    }
  }

  /** Every bit of the mask tells whether its signature is present. */
  lemma MaskBit(sigs: seq<Option<Sig>>, i: nat)
    requires i < |sigs|
    ensures Bit(Mask(sigs)[i / 8], i % 8) == sigs[i].Some?
  {
    BitOfBits(MaskBits(sigs, i / 8), i % 8);
    assert i == 8 * (i / 8) + i % 8;
  }

  method BuildMask(sigs: seq<Option<Sig>>) returns (mask: bytes)
    ensures mask == Mask(sigs)
  {
    mask := seq(MaskLen(|sigs|), i => 0);
    forall k: nat | k < |mask|
      ensures mask[k] == MaskByte(sigs[..0], k)
    {
      NoBits(sigs[..0], k);
    }
    for i := 0 to |sigs|
      invariant |mask| == MaskLen(|sigs|)
      invariant forall k :: 0 <= k < |mask| ==> mask[k] == MaskByte(sigs[..i], k)
    {
      forall k: nat | k < |mask|
        ensures MaskByte(sigs[..i + 1], k) ==
                if k == i / 8 && sigs[i].Some? then SetBit(MaskByte(sigs[..i], k), i % 8) else MaskByte(sigs[..i], k)
      {
        MaskStep(sigs, i, k);
      }
      if sigs[i].Some? {
        mask := mask[i / 8 := SetBit(mask[i / 8], i % 8)];
      }
    }
    assert sigs[..|sigs|] == sigs;
  }

  lemma NoBits(sigs: seq<Option<Sig>>, k: nat)
    requires sigs == []
    ensures MaskByte(sigs, k) == 0
  {
    AllFalse(MaskBits(sigs, k));
  }

  lemma {:induction false} AllFalse(bits: seq<bool>)
    requires forall j :: 0 <= j < |bits| ==> !bits[j]
    ensures FromBits(bits) == 0
  {
    if bits != [] {
      AllFalse(bits[1..]);
    }
  }

  function SlotBytes(slot: Option<Sig>): bytes {
    match slot
    case Some(sig) => sig
    case None => []
  }

  function PresentSigs(sigs: seq<Option<Sig>>): bytes {
    if sigs == [] then [] else PresentSigs(sigs[..|sigs| - 1]) + SlotBytes(sigs[|sigs| - 1])
  }

  function EncSparseSigs(sigs: seq<Option<Sig>>): bytes {
    Mask(sigs) + PresentSigs(sigs)
  }

  /** EncodeSparseSigs: the mask is set bit by bit, then the present signatures follow in order. */
  method EncodeSparseSigs(w: Stream, sigs: seq<Option<Sig>>)
    modifies w
    ensures w.data == old(w.data) + EncSparseSigs(sigs)
  {
    var mask := BuildMask(sigs);
    w.Write(mask);
    ghost var start := w.data;
    assert start == start + PresentSigs(sigs[..0]);
    for i := 0 to |sigs|
      invariant w.data == start + PresentSigs(sigs[..i])
    {
      assert sigs[..i + 1][..i] == sigs[..i];
      assert PresentSigs(sigs[..i + 1]) == PresentSigs(sigs[..i]) + SlotBytes(sigs[i]);
      Regroup3(start, PresentSigs(sigs[..i]), SlotBytes(sigs[i]));
      if sigs[i].Some? {
        w.Write(sigs[i].value);
      }
    }
    assert sigs[..|sigs|] == sigs;
    assert start + PresentSigs(sigs) == old(w.data) + EncSparseSigs(sigs);
  }

  /** The signatures from index i on, read as the mask says. */
  function DecSigsFrom(mask: bytes, i: nat, n: nat, s: bytes): Decoded<seq<Option<Sig>>>
    requires i <= n && |mask| == MaskLen(n)
    decreases n - i
  {
    if i == n then Got([], s)
    else if !Bit(mask[i / 8], i % 8) then
      var (sigs, s1) :- DecSigsFrom(mask, i + 1, n, s);
      Got([None] + sigs, s1)
    else
      var (sig, s1) :- Take(SIG_LEN, s);
      var (sigs, s2) :- DecSigsFrom(mask, i + 1, n, s1);
      Got([Some(sig)] + sigs, s2)
  }

  function DecSparseSigs(n: nat, s: bytes): Decoded<seq<Option<Sig>>> {
    var (mask, s1) :- Take(MaskLen(n), s);
    DecSigsFrom(mask, 0, n, s1)
  }

  /** DecodeSparseSigs into n slots: an outer loop over mask bytes, an inner one over their bits. */
  method DecodeSparseSigs(r: Stream, n: nat) returns (sigs: Option<seq<Option<Sig>>>)
    modifies r
    ensures sigs.Some? <==> DecSparseSigs(n, old(r.data)).Got?
    ensures sigs.Some? ==> DecSparseSigs(n, old(r.data)) == Got(sigs.value, r.data)
  {
    var mask := r.ReadFull(MaskLen(n));
    if mask.None? {
      return None;
    }
    ghost var all := DecSigsFrom(mask.value, 0, n, r.data);
    var got: seq<Option<Sig>> := [];
    assert Prepend(got, all) == all by {
      assert all.Got? ==> [] + all.value == all.value;
    }
    for maskIdx := 0 to |mask.value|
      invariant |got| == (if 8 * maskIdx < n then 8 * maskIdx else n)
      invariant Prepend(got, DecSigsFrom(mask.value, |got|, n, r.data)) == all
    {
      var more := DecodeMaskByte(r, mask.value, maskIdx, n, got, all);
      if more.None? {
        return None;
      }
      got := more.value;
    }
    assert got + [] == got;
    sigs := Some(got);
  }

  /** The inner loop over the bits of one mask byte; None where a signature cannot be read. */
  method DecodeMaskByte(r: Stream, mask: bytes, maskIdx: nat, n: nat, before: seq<Option<Sig>>, ghost all: Decoded<seq<Option<Sig>>>)
    returns (after: Option<seq<Option<Sig>>>)
    requires |mask| == MaskLen(n) && maskIdx < |mask| && |before| == 8 * maskIdx <= n
    requires Prepend(before, DecSigsFrom(mask, |before|, n, r.data)) == all
    modifies r
    ensures after.None? ==> all.Failed?
    ensures after.Some? ==> |after.value| == (if 8 * maskIdx + 8 < n then 8 * maskIdx + 8 else n)
    ensures after.Some? ==> Prepend(after.value, DecSigsFrom(mask, |after.value|, n, r.data)) == all
  {
    var got := before;
    var bitIdx := 0;
    while bitIdx < 8 && |got| < n
      invariant bitIdx <= 8 && |got| == 8 * maskIdx + bitIdx <= n
      invariant Prepend(got, DecSigsFrom(mask, |got|, n, r.data)) == all
    {
      ghost var from, sigIdx := r.data, |got|;
      var slot: Option<Sig> := None;
      if Bit(mask[maskIdx], bitIdx) {
        slot := r.ReadFull(SIG_LEN);
        if slot.None? {
          return None;
        }
      }
      SlotDecoded(mask, sigIdx, n, from, slot, r.data);
      PrependOne(got, slot, DecSigsFrom(mask, sigIdx + 1, n, r.data));
      got := got + [slot];
      bitIdx := bitIdx + 1;
    }
    after := Some(got);
  }

  /** Decoding from index i is decoding one slot and then the rest. */
  lemma SlotDecoded(mask: bytes, i: nat, n: nat, s: bytes, slot: Option<Sig>, rest: bytes)
    requires i < n && |mask| == MaskLen(n)
    requires Bit(mask[i / 8], i % 8) == slot.Some?
    requires if slot.None? then rest == s else Take(SIG_LEN, s) == Got(slot.value, rest)
    ensures DecSigsFrom(mask, i, n, s) == Prepend([slot], DecSigsFrom(mask, i + 1, n, rest))
  {
  }

  ghost function Prepend<T>(xs: seq<T>, d: Decoded<seq<T>>): Decoded<seq<T>> {
    match d
    case Failed => Failed
    case Got(ys, rest) => Got(xs + ys, rest)
  }

  lemma PrependOne<T>(xs: seq<T>, x: T, d: Decoded<seq<T>>)
    ensures Prepend(xs, Prepend([x], d)) == Prepend(xs + [x], d)
  {
    if d.Got? {
      assert xs + ([x] + d.value) == xs + [x] + d.value;
    }
  }

  predicate FixedLength(sigs: seq<Option<Sig>>) {
    forall i :: 0 <= i < |sigs| && sigs[i].Some? ==> |sigs[i].value| == SIG_LEN
  }

  function PresentFrom(sigs: seq<Option<Sig>>, i: nat): bytes
    requires i <= |sigs|
    decreases |sigs| - i
  {
    if i == |sigs| then [] else SlotBytes(sigs[i]) + PresentFrom(sigs, i + 1)
  }

  lemma {:induction false} PresentSplit(sigs: seq<Option<Sig>>, i: nat)
    requires i <= |sigs|
    ensures PresentSigs(sigs) == PresentSigs(sigs[..i]) + PresentFrom(sigs, i)
    decreases |sigs| - i
  {
    if i == |sigs| {
      assert sigs[..i] == sigs;
    } else {
      PresentSplit(sigs, i + 1);
      assert sigs[..i + 1][..i] == sigs[..i];
      Regroup3(PresentSigs(sigs[..i]), SlotBytes(sigs[i]), PresentFrom(sigs, i + 1));
    }
  }

  lemma {:induction false} SigsFromRoundTrip(sigs: seq<Option<Sig>>, i: nat, rest: bytes)
    requires i <= |sigs| && FixedLength(sigs)
    ensures DecSigsFrom(Mask(sigs), i, |sigs|, PresentFrom(sigs, i) + rest) == Got(sigs[i..], rest)
    decreases |sigs| - i
  {
    if i == |sigs| {
      assert PresentFrom(sigs, i) + rest == rest && sigs[i..] == [];
    } else {
      SigsFromRoundTrip(sigs, i + 1, rest);
      MaskBit(sigs, i);
      assert sigs[i..] == [sigs[i]] + sigs[i + 1..];
      var more := PresentFrom(sigs, i + 1) + rest;
      Regroup3(SlotBytes(sigs[i]), PresentFrom(sigs, i + 1), rest);
      if sigs[i].Some? {
        TakeRoundTrip(sigs[i].value, more);
      } else {
        assert [] + more == more;
      }
      SlotDecoded(Mask(sigs), i, |sigs|, PresentFrom(sigs, i) + rest, sigs[i], more);
    }
  }

  /** Every list of fixed-length or missing signatures survives, and what follows is left untouched. */
  lemma SparseSigsRoundTrip(sigs: seq<Option<Sig>>, rest: bytes)
    requires FixedLength(sigs)
    ensures DecSparseSigs(|sigs|, EncSparseSigs(sigs) + rest) == Got(sigs, rest)
  {
    PresentSplit(sigs, 0);
    assert sigs[..0] == [] && sigs[0..] == sigs;
    assert EncSparseSigs(sigs) + rest == Mask(sigs) + (PresentFrom(sigs, 0) + rest);
    TakeRoundTrip(Mask(sigs), PresentFrom(sigs, 0) + rest);
    SigsFromRoundTrip(sigs, 0, rest);
  }
}

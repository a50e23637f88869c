/** The bytes themselves: which ones the encoders write, that numbers are written as short as they can be, and what every
    decoded value satisfies (pkg/io/serialize.go, pkg/io/bigint.go, channel/allocation.go, channel/params.go). */
module Formats {
  import opened Base
  import opened Sums
  import opened Allocations
  import opened States
  import opened Codec
  import opened Wire
  import SparseSigs

  // ----- bytes of numbers

  lemma BoolBytes()
    ensures EncBool(true) == Some([1]) && EncBool(false) == Some([0])
  {
  }

  /** The first k bytes as digits of base 256, byte i with weight 256 to the i. */
  function Weighted(b: bytes, k: nat): nat
    requires k <= |b|
  {
    if k == 0 then 0 else Weighted(b, k - 1) + b[k - 1] * Power256(k - 1)
  }

  lemma Scale(x: int, p: int)
    ensures x * (256 * p) == 256 * (x * p)
  {
  }

  lemma {:induction false} WeightedShift(d: byte, b: bytes, k: nat)
    requires k <= |b|
    ensures Weighted([d] + b, k + 1) == d + 256 * Weighted(b, k)
  {
    if k > 0 {
      WeightedShift(d, b, k - 1);
      assert ([d] + b)[k] == b[k - 1];
      Scale(b[k - 1], Power256(k - 1));
      assert Power256(k) == 256 * Power256(k - 1);
    }
  }

  /** A fixed-width number is written least significant byte first. */
  lemma {:induction false} UintWeights(n: nat, width: nat)
    requires n < Power256(width)
    ensures EncUint(n, width).Some? && |EncUint(n, width).value| == width && Weighted(EncUint(n, width).value, width) == n
  {
    if width > 0 {
      UintWeights(n / 256, width - 1);
      WeightedShift(n % 256, LittleEndian(n / 256, width - 1), width - 1);
    }
  }

  /** A big number is written most significant byte first: what comes first weighs most. */
  lemma {:induction false} BigWeights(first: byte, b: bytes)
    ensures FromBigBytes([first] + b) == first * Power256(|b|) + FromBigBytes(b)
  {
    if b == [] {
      assert ([first] + b)[..0] == [];
    } else {
      var init, last := b[..|b| - 1], b[|b| - 1];
      BigWeights(first, init);
      assert ([first] + b)[..|b|] == [first] + init;
      Scale(first, Power256(|init|));
      assert Power256(|b|) == 256 * Power256(|init|);
    }
  }

  /** No bytes for a number are fewer than its own, and with as many they are the same. */
  lemma {:induction false} OwnBytesShortest(b: bytes)
    ensures |BigBytes(FromBigBytes(b))| <= |b|
    ensures |BigBytes(FromBigBytes(b))| == |b| ==> BigBytes(FromBigBytes(b)) == b
  {
    if b != [] {
      var init, last := b[..|b| - 1], b[|b| - 1];
      OwnBytesShortest(init);
      var n := FromBigBytes(b);
      assert n / 256 == FromBigBytes(init) && n % 256 == last;
      assert b == init + [last];
    }
  }

  /** Of all encodings of a number that the decoder accepts, the written one is the shortest, and the only one of its length. */
  lemma BigIntShortest(s: bytes, n: int, rest: bytes)
    requires DecBigInt(s) == Got(n, rest)
    ensures EncBigInt(n).Some? && |EncBigInt(n).value| <= |s| - |rest|
    ensures |EncBigInt(n).value| == |s| - |rest| ==> s == EncBigInt(n).value + rest
  {
    var len := s[0];
    var b := s[1..][..len];
    OwnBytesShortest(b);
    assert s == [len] + b + rest;
  }

  // ----- what decoded values satisfy

  lemma {:induction false} ManyDecoded<T>(dec: bytes -> Decoded<T>, n: nat, s: bytes)
    ensures DecMany(dec, n, s).Got? ==> |DecMany(dec, n, s).value| == n
  {
    if n > 0 && dec(s).Got? {
      ManyDecoded(dec, n - 1, dec(s).rest);
    }
  }

  /** Whatever decodes as an allocation is well formed. */
  lemma DecodedAllocation(s: bytes)
    requires DecAllocation(s).Got?
    ensures var a := DecAllocation(s).value;
            && 1 <= |a.assets| <= 1024 && |a.balances| == |a.assets| && |a.locked| <= 1024
            && (forall i :: 0 <= i < |a.balances| ==> 1 <= |a.balances[i]| == |a.balances[0]| <= 1024)
            && (forall i, j :: 0 <= i < |a.balances| && 0 <= j < |a.balances[i]| ==> a.balances[i][j] >= 0)
            && (forall k :: 0 <= k < |a.locked| ==> |a.locked[k].bals| == |a.assets|)
  {
    var a := DecAllocation(s).value;
    assert forall i :: 0 <= i < |a.balances| ==> ValidRow(a.balances[i], |a.balances[0]|);
  }

  /** Whatever decodes as parameters satisfies NewParams, and its ID is the one calculated from them. */
  lemma DecodedParams(calcID: CalcID, s: bytes)
    requires DecParams(calcID, s).Got?
    ensures var p := DecParams(calcID, s).value;
            && p.challengeDuration > 0 && 2 <= |p.parts| <= 1024 && |BigBytes(p.nonce)| <= 32
            && p.id == calcID(p.challengeDuration, p.parts, p.app, p.nonce, p.ledger, p.virtual)
  {
  }

  lemma {:induction false} DecodedSigsFrom(mask: bytes, i: nat, n: nat, s: bytes)
    requires i <= n && |mask| == SparseSigs.MaskLen(n) && SparseSigs.DecSigsFrom(mask, i, n, s).Got?
    ensures var sigs := SparseSigs.DecSigsFrom(mask, i, n, s).value;
            |sigs| == n - i && SparseSigs.FixedLength(sigs)
    decreases n - i
  {
    if i < n {
      var sigs := SparseSigs.DecSigsFrom(mask, i, n, s).value;
      if SparseSigs.DecSigsFrom(mask, i + 1, n, s).Got? {
        DecodedSigsFrom(mask, i + 1, n, s);
      }
      if Take(SparseSigs.SIG_LEN, s).Got? && SparseSigs.DecSigsFrom(mask, i + 1, n, Take(SparseSigs.SIG_LEN, s).rest).Got? {
        DecodedSigsFrom(mask, i + 1, n, Take(SparseSigs.SIG_LEN, s).rest);
      }
    }
  }

  /** Whatever decodes as a list of signatures has a slot per participant, each empty or of the fixed length. */
  lemma DecodedSigs(n: nat, s: bytes)
    requires SparseSigs.DecSparseSigs(n, s).Got?
    ensures |SparseSigs.DecSparseSigs(n, s).value| == n && SparseSigs.FixedLength(SparseSigs.DecSparseSigs(n, s).value)
  {
    var mask := Take(SparseSigs.MaskLen(n), s).value;
    DecodedSigsFrom(mask, 0, n, Take(SparseSigs.MaskLen(n), s).rest);
  }

  // ----- what can be encoded

  lemma {:induction false} ManyEncodable<T>(enc: T -> Option<bytes>, xs: seq<T>)
    requires EncMany(enc, xs).Some?
    ensures forall i :: 0 <= i < |xs| ==> enc(xs[i]).Some?
  {
    if xs != [] {
      ManyEncodable(enc, xs[1..]);
      assert forall i :: 1 <= i < |xs| ==> xs[i] == xs[1..][i - 1];
    }
  }

  /** Index maps of 16-bit numbers, and no more of them than fit their length. */
  predicate SmallMaps(locked: seq<SubAlloc>) {
    forall k :: 0 <= k < |locked| ==>
      |locked[k].indexMap| < 0x1_0000 && forall i :: 0 <= i < |locked[k].indexMap| ==> locked[k].indexMap[i] < 0x1_0000
  }

  lemma EncodableSubAlloc(s: SubAlloc)
    requires EncSubAlloc(s).Some? && |s.indexMap| < 0x1_0000 && forall i :: 0 <= i < |s.indexMap| ==> s.indexMap[i] < 0x1_0000
    ensures WireSubAlloc(s)
  {
    ManyEncodable(EncBigInt, s.bals);
  }

  lemma EncodableBalances(b: Balances)
    requires EncBalances(b).Some? && b != [] && forall i :: 0 <= i < |b| ==> |b[i]| == |b[0]|
    ensures WireBalances(b)
  {
    ManyEncodable(EncRow, b);
    forall i | 0 <= i < |b|
      ensures forall j :: 0 <= j < |b[i]| ==> FitsBigInt(b[i][j])
    {
      ManyEncodable(EncBigInt, b[i]);
    }
  }

  /** Every allocation that can be encoded at all, with small index maps, survives: the round trip leaves out no other. */
  lemma EncodableSurvives(a: Allocation)
    requires EncAllocation(a).Some? && SmallMaps(a.locked)
    ensures RoundTrips(EncAllocation(a), DecAllocation, a)
  {
    ManyEncodable(EncAddress, a.assets);
    ManyEncodable(EncSubAlloc, a.locked);
    forall k | 0 <= k < |a.locked|
      ensures WireSubAlloc(a.locked[k])
    {
      EncodableSubAlloc(a.locked[k]);
    }
    assert forall i :: 0 <= i < |a.balances| ==> ValidRow(a.balances[i], |a.balances[0]|);
    EncodableBalances(a.balances);
    AllocationRoundTrip(a);
  }

  // ----- one transaction, byte by byte

  function Fill(n: nat, b: byte): (r: bytes)
    ensures |r| == n
  {
    seq(n, i => b)
  }

  function SampleLocked(): SubAlloc {
    SubAlloc(Fill(32, 6), [3], [1, 0])
  }

  function SampleAlloc(): Allocation {
    Allocation([Fill(20, 9)], [[5, 256]], [SampleLocked()])
  }

  function SampleTransaction(): Transaction {
    Transaction(Some(State(Fill(32, 7), 258, AppDef(Fill(20, 8)), SampleAlloc(), [42], true)), [None, Some(Fill(65, 4))])
  }

  lemma SmallIndex(n: nat)
    requires n < 256
    ensures EncIndex(n) == Some([n, 0])
  {
    assert LittleEndian(0, 1) == [0] + LittleEndian(0, 0);
    assert LittleEndian(n, 2) == [n % 256] + LittleEndian(n / 256, 1) == [n, 0];
  }

  lemma SmallBig(n: nat)
    requires 0 < n < 256
    ensures EncBigInt(n) == Some([1, n])
  {
    assert BigBytes(n) == BigBytes(0) + [n] == [n];
    assert [1] + [n] == [1, n];
  }

  lemma SampleVersion()
    ensures EncUint(258, 8) == Some([2, 1, 0, 0, 0, 0, 0, 0])
  {
    assert LittleEndian(0, 2) == [0] + LittleEndian(0, 1) == [0, 0];
    assert LittleEndian(0, 3) == [0] + LittleEndian(0, 2) == [0, 0, 0];
    assert LittleEndian(0, 4) == [0] + LittleEndian(0, 3) == [0, 0, 0, 0];
    assert LittleEndian(0, 5) == [0] + LittleEndian(0, 4) == [0, 0, 0, 0, 0];
    assert LittleEndian(0, 6) == [0] + LittleEndian(0, 5) == [0, 0, 0, 0, 0, 0];
    assert LittleEndian(1, 7) == [1] + LittleEndian(0, 6) == [1, 0, 0, 0, 0, 0, 0];
    assert LittleEndian(258, 8) == [2] + LittleEndian(1, 7) == [2, 1, 0, 0, 0, 0, 0, 0];
  }

  lemma OneEncoded<T>(enc: T -> Option<bytes>, x: T)
    requires enc(x).Some?
    ensures EncMany(enc, [x]) == enc(x)
  {
    assert [x][1..] == [] && EncMany(enc, [x][1..]) == Some([]);
    assert enc(x).value + [] == enc(x).value;
  }

  lemma TwoEncoded<T>(enc: T -> Option<bytes>, x: T, y: T)
    requires enc(x).Some? && enc(y).Some?
    ensures EncMany(enc, [x, y]) == Some(enc(x).value + enc(y).value)
  {
    OneEncoded(enc, y);
    assert [x, y][1..] == [y];
  }

  lemma SampleBalances()
    ensures EncBalances([[5, 256]]) == Some([1, 0, 2, 0] + [1, 5] + [2, 1, 0])
  {
    SmallIndex(1);
    SmallIndex(2);
    SmallBig(5);
    assert BigBytes(1) == BigBytes(0) + [1] == [1];
    assert BigBytes(256) == BigBytes(1) + [0] == [1, 0];
    assert [2] + [1, 0] == [2, 1, 0];
    assert EncBigInt(256) == Some([2, 1, 0]);
    TwoEncoded(EncBigInt, 5, 256);
    OneEncoded(EncRow, [5, 256]);
    assert [1, 0] + [2, 0] + ([1, 5] + [2, 1, 0]) == [1, 0, 2, 0] + [1, 5] + [2, 1, 0];
  }

  lemma SampleLockedBytes()
    ensures EncSubAlloc(SampleLocked()) == Some(Fill(32, 6) + [1, 0] + [1, 3] + [2, 0] + [1, 0, 0, 0])
  {
    SmallIndex(0);
    SmallIndex(1);
    SmallIndex(2);
    SmallBig(3);
    OneEncoded(EncBigInt, 3);
    TwoEncoded(EncIndex, 1, 0);
    assert [1, 0] + [0, 0] == [1, 0, 0, 0];
    assert EncMany(EncIndex, [1, 0]) == Some([1, 0, 0, 0]);
    assert EncSubAllocBody(SampleLocked()) == Some([1, 0] + [1, 3] + ([2, 0] + [1, 0, 0, 0]));
    assert Fill(32, 6) + ([1, 0] + [1, 3] + ([2, 0] + [1, 0, 0, 0])) == Fill(32, 6) + [1, 0] + [1, 3] + [2, 0] + [1, 0, 0, 0];
  }

  lemma SampleAllocBytes()
    ensures EncAllocation(SampleAlloc()) ==
            Some([1, 0, 2, 0, 1, 0] + Fill(20, 9) + ([1, 0, 2, 0] + [1, 5] + [2, 1, 0]) +
                 (Fill(32, 6) + [1, 0] + [1, 3] + [2, 0] + [1, 0, 0, 0]))
  {
    SmallIndex(1);
    SmallIndex(2);
    SampleBalances();
    SampleLockedBytes();
    OneEncoded(EncAddress, Fill(20, 9));
    OneEncoded(EncSubAlloc, SampleLocked());
    assert [1, 0] + ([2, 0] + [1, 0]) == [1, 0, 2, 0, 1, 0];
    assert EncDimensions(SampleAlloc()) == Some([1, 0, 2, 0, 1, 0]);
    var a, b, c := Fill(20, 9), [1, 0, 2, 0] + [1, 5] + [2, 1, 0], Fill(32, 6) + [1, 0] + [1, 3] + [2, 0] + [1, 0, 0, 0];
    Regroup3([1, 0, 2, 0, 1, 0], a, b + c);
    Regroup3([1, 0, 2, 0, 1, 0] + a, b, c);
  }

  lemma {:induction false} NoBits(bits: seq<bool>)
    requires forall i :: 0 <= i < |bits| ==> !bits[i]
    ensures SparseSigs.FromBits(bits) == 0
  {
    if bits != [] {
      NoBits(bits[1..]);
    }
  }

  lemma SampleSigs()
    ensures SparseSigs.EncSparseSigs([None, Some(Fill(65, 4))]) == [2] + Fill(65, 4)
  {
    var sigs: seq<Option<Sig>> := [None, Some(Fill(65, 4))];
    var none: Option<Sig> := None;
    var clear := seq(6, i => false);
    assert SparseSigs.MaskBits(sigs, 0) == [false] + ([true] + clear);
    NoBits(clear);
    assert ([false] + ([true] + clear))[1..] == [true] + clear && ([true] + clear)[1..] == clear;
    assert SparseSigs.MaskByte(sigs, 0) == 2;
    assert SparseSigs.Mask(sigs) == [2];
    assert sigs[..1] == [none] && sigs[..1][..0] == [];
    assert SparseSigs.PresentSigs(sigs[..1]) == [];
  }

  /** The transaction marker, the ID, the version, the allocation with its dimensions, assets, balances and locked funds, the final
      flag, the app, its data, and the signatures behind their mask. */
  lemma SampleTransactionBytes()
    ensures EncTransaction(SampleTransaction()) ==
            Some([1] + Fill(32, 7) + [2, 1, 0, 0, 0, 0, 0, 0]
                 + [1, 0, 2, 0, 1, 0] + Fill(20, 9) + [1, 0, 2, 0, 1, 5, 2, 1, 0]
                 + Fill(32, 6) + [1, 0, 1, 3, 2, 0, 1, 0, 0, 0]
                 + [1] + [1] + Fill(20, 8) + [42]
                 + [2] + Fill(65, 4))
  {
    SampleVersion();
    SampleAllocBytes();
    SampleSigs();
    var s := SampleTransaction().state.value;
    assert EncStateTail(s) == Some([1] + ([1] + Fill(20, 8) + [42]));
    SampleTogether(EncAllocation(s.alloc).value);
  }

  /** The parts in their order, whatever the bytes of the allocation are. */
  lemma SampleTogether(alloc: bytes)
    requires alloc == [1, 0, 2, 0, 1, 0] + Fill(20, 9) + ([1, 0, 2, 0] + [1, 5] + [2, 1, 0]) +
                      (Fill(32, 6) + [1, 0] + [1, 3] + [2, 0] + [1, 0, 0, 0])
    ensures var v := [2, 1, 0, 0, 0, 0, 0, 0];
            [1] + (Fill(32, 7) + (v + alloc) + ([1] + ([1] + Fill(20, 8) + [42]))) + ([2] + Fill(65, 4)) ==
            [1] + Fill(32, 7) + v
            + [1, 0, 2, 0, 1, 0] + Fill(20, 9) + [1, 0, 2, 0, 1, 5, 2, 1, 0]
            + Fill(32, 6) + [1, 0, 1, 3, 2, 0, 1, 0, 0, 0]
            + [1] + [1] + Fill(20, 8) + [42]
            + [2] + Fill(65, 4)
  {
  }
}

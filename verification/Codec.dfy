/** Primitive wire encodings (pkg/io/serialize.go, pkg/io/bigint.go) and lists of them. An encoder yields
    None where the source returns an error or panics; a decoder hands back what it did not consume. */
module Codec {
  import opened Base

  datatype Decoded<+T> = Got(value: T, rest: bytes) | Failed {
    predicate IsFailure() {
      Failed?
    }

    function PropagateFailure<U>(): Decoded<U>
      requires Failed?
    {
      Failed
    }

    function Extract(): (T, bytes)
      requires Got?
    {
      (value, rest)
    }
  }

  /** The law every codec is held to: whatever follows an encoding is left untouched. */
  ghost predicate RoundTrips<T>(enc: Option<bytes>, dec: bytes -> Decoded<T>, x: T) {
    enc.Some? && forall rest: bytes :: dec(enc.value + rest) == Got(x, rest)
  }

  function Join(a: Option<bytes>, b: Option<bytes>): Option<bytes> {
    if a.Some? && b.Some? then Some(a.value + b.value) else None
  }

  lemma Regroup3(a: bytes, b: bytes, c: bytes)
    ensures a + b + c == a + (b + c)
  {
  }

  lemma Regroup4(a: bytes, b: bytes, c: bytes, d: bytes)
    ensures a + (b + c) + d == a + (b + (c + d))
    ensures a + b + c + d == a + (b + (c + d))
  {
  }

  // ----- fixed-width fields

  function Take(n: nat, s: bytes): Decoded<bytes> {
    if n <= |s| then Got(s[..n], s[n..]) else Failed
  }

  lemma TakeRoundTrip(b: bytes, rest: bytes)
    ensures Take(|b|, b + rest) == Got(b, rest)
  {
  }

  /** Little-endian encoding of n in the given number of bytes; higher digits are cut off. */
  function LittleEndian(n: nat, width: nat): (b: bytes)
    ensures |b| == width
  {
    if width == 0 then [] else [n % 256] + LittleEndian(n / 256, width - 1)
  }

  function FromLittleEndian(b: bytes): nat {
    if b == [] then 0 else b[0] + 256 * FromLittleEndian(b[1..])
  }

  function Power256(k: nat): nat {
    if k == 0 then 1 else 256 * Power256(k - 1)
  }

  lemma {:induction false} LittleEndianRoundTrip(n: nat, width: nat)
    requires n < Power256(width)
    ensures FromLittleEndian(LittleEndian(n, width)) == n
  {
    if width > 0 {
      LittleEndianRoundTrip(n / 256, width - 1);
      assert LittleEndian(n, width)[1..] == LittleEndian(n / 256, width - 1);
    }
  }

  function EncUint(n: nat, width: nat): Option<bytes> {
    Some(LittleEndian(n, width))
  }

  function DecUint(width: nat, s: bytes): Decoded<nat> {
    var (b, s1) :- Take(width, s);
    Got(FromLittleEndian(b), s1)
  }

  lemma UintRoundTrip(n: nat, width: nat, rest: bytes)
    requires n < Power256(width)
    ensures DecUint(width, LittleEndian(n, width) + rest) == Got(n, rest)
  {
    LittleEndianRoundTrip(n, width);
    TakeRoundTrip(LittleEndian(n, width), rest);
  }

  const INDEX_SIZE: nat := 0x1_0000

  function EncIndex(n: nat): Option<bytes> {
    EncUint(n, 2)
  }

  function DecIndex(s: bytes): Decoded<nat> {
    DecUint(2, s)
  }

  lemma IndexRoundTrip(n: nat, rest: bytes)
    requires n < INDEX_SIZE
    ensures DecIndex(EncIndex(n).value + rest) == Got(n, rest)
  {
    assert Power256(2) == 256 * (256 * Power256(0));
    UintRoundTrip(n, 2, rest);
  }

  function EncBool(b: bool): Option<bytes> {
    Some([if b then 1 else 0])
  }

  function DecBool(s: bytes): Decoded<bool> {
    if s == [] then Failed else Got(s[0] != 0, s[1..])
  }

  lemma BoolRoundTrip(b: bool, rest: bytes)
    ensures DecBool(EncBool(b).value + rest) == Got(b, rest)
  {
    assert ([if b then 1 else 0] + rest)[1..] == rest;
  }

  /** A field of a known number of bytes. */
  function EncFixed(width: nat, b: bytes): Option<bytes> {
    if |b| == width then Some(b) else None
  }

  // ----- big integers

  const MAX_BIG_INT_LENGTH := 128

  /** big.Int.Bytes: big-endian without leading zeros. */
  function BigBytes(n: nat): bytes {
    if n == 0 then [] else BigBytes(n / 256) + [n % 256]
  }

  /** big.Int.SetBytes. */
  function FromBigBytes(b: bytes): nat {
    if b == [] then 0 else 256 * FromBigBytes(b[..|b| - 1]) + b[|b| - 1]
  }

  lemma {:induction false} BigBytesRoundTrip(n: nat)
    ensures FromBigBytes(BigBytes(n)) == n && (n > 0 ==> BigBytes(n) != [] && BigBytes(n)[0] != 0)
  {
    if n > 0 {
      BigBytesRoundTrip(n / 256);
      var b := BigBytes(n);
      assert b[..|b| - 1] == BigBytes(n / 256);
    }
  }

  predicate FitsBigInt(n: int) {
    n >= 0 && |BigBytes(n)| <= MAX_BIG_INT_LENGTH
  }

  function EncBigInt(n: int): (r: Option<bytes>)
    ensures r.Some? <==> FitsBigInt(n)
  {
    if FitsBigInt(n) then Some([|BigBytes(n)|] + BigBytes(n)) else None
  }

  function DecBigInt(s: bytes): Decoded<int> {
    if s == [] || s[0] > MAX_BIG_INT_LENGTH then Failed
    else
      var (b, s1) :- Take(s[0], s[1..]);
      Got(FromBigBytes(b), s1)
  }

  lemma BigIntRoundTrip(n: int)
    requires FitsBigInt(n)
    ensures RoundTrips(EncBigInt(n), DecBigInt, n)
  {
    forall rest: bytes
      ensures DecBigInt(EncBigInt(n).value + rest) == Got(n, rest)
    {
      var b := BigBytes(n);
      assert ([|b|] + b + rest)[1..] == b + rest;
      TakeRoundTrip(b, rest);
      BigBytesRoundTrip(n);
    }
  }

  /** A byte stream: writing appends at the end, reading consumes from the front. */
  class Stream {
    var data: bytes

    constructor (data: bytes)
      ensures this.data == data
    {
      this.data := data;
    }

    method Write(b: bytes)
      modifies this
      ensures data == old(data) + b
    {
      data := data + b;
    }

    /** io.ReadFull. */
    method ReadFull(n: nat) returns (b: Option<bytes>)
      modifies this
      ensures n <= |old(data)| ==> b == Some(old(data)[..n]) && data == old(data)[n..]
      ensures n > |old(data)| ==> b == None
    {
      if n > |data| {
        data := [];
        return None;
      }
      b := Some(data[..n]);
      data := data[n..];
    }

    /** BigInt.Encode; a negative number makes the source panic. */
    method EncodeBigInt(n: nat) returns (ok: bool)
      modifies this
      ensures ok == EncBigInt(n).Some?
      ensures data == if ok then old(data) + EncBigInt(n).value else old(data)
    {
      var b := BigBytes(n);
      if |b| > MAX_BIG_INT_LENGTH {
        return false;
      }
      Write([|b|]);
      if |b| > 0 {
        Write(b);
      }
      assert old(data) + [|b|] + b == old(data) + ([|b|] + b);
      ok := true;
    }

    /** BigInt.Decode. */
    method DecodeBigInt() returns (n: Option<nat>)
      modifies this
      ensures n.Some? <==> DecBigInt(old(data)).Got?
      ensures n.Some? ==> DecBigInt(old(data)) == Got(n.value, data)
    {
      var length := ReadFull(1);
      if length.None? || length.value[0] > MAX_BIG_INT_LENGTH {
        return None;
      }
      var b := ReadFull(length.value[0]);
      if b.None? {
        return None;
      }
      n := Some(FromBigBytes(b.value));
    }
  }

  // ----- lists

  function EncMany<T>(enc: T -> Option<bytes>, xs: seq<T>): Option<bytes> {
    if xs == [] then Some([]) else Join(enc(xs[0]), EncMany(enc, xs[1..]))
  }

  function DecMany<T>(dec: bytes -> Decoded<T>, n: nat, s: bytes): Decoded<seq<T>> {
    if n == 0 then Got([], s)
    else
      var (x, s1) :- dec(s);
      var (xs, s2) :- DecMany(dec, n - 1, s1);
      Got([x] + xs, s2)
  }

  lemma {:induction false} ManyRoundTrip<T>(enc: T -> Option<bytes>, dec: bytes -> Decoded<T>, xs: seq<T>)
    requires forall i :: 0 <= i < |xs| ==> RoundTrips(enc(xs[i]), dec, xs[i])
    ensures EncMany(enc, xs).Some?
    ensures forall rest: bytes :: DecMany(dec, |xs|, EncMany(enc, xs).value + rest) == Got(xs, rest)
  {
    if xs == [] {
      forall rest: bytes
        ensures DecMany(dec, |xs|, EncMany(enc, xs).value + rest) == Got(xs, rest)
      {
        assert EncMany(enc, xs).value + rest == rest;
      }
    } else {
      assert RoundTrips(enc(xs[0]), dec, xs[0]);
      ManyRoundTrip(enc, dec, xs[1..]);
      forall rest: bytes
        ensures DecMany(dec, |xs|, EncMany(enc, xs).value + rest) == Got(xs, rest)
      {
        var a, b := enc(xs[0]).value, EncMany(enc, xs[1..]).value;
        assert a + b + rest == a + (b + rest);
        assert dec(a + (b + rest)) == Got(xs[0], b + rest);
        assert DecMany(dec, |xs[1..]|, b + rest) == Got(xs[1..], rest);
        assert [xs[0]] + xs[1..] == xs;
      }
    }
  }
}

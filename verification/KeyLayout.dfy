/** The keys under which a channel is persisted and their order (channel/persistence/keyvalue/persister.go). */
module KeyLayout {
  import opened Base
  import opened Keys

  function Ascii(s: string): (b: bytes)
    ensures |b| == |s| && forall i :: 0 <= i < |s| ==> b[i] == s[i] as int % 256
  {
    seq(|s|, i requires 0 <= i < |s| => s[i] as int % 256)
  }

  const SIG_KEY := "staging:sig:"

  // ----- decimal numbers

  const ZERO: byte := 48
  const COLON: byte := 58

  function Power10(w: nat): nat {
    if w == 0 then 1 else 10 * Power10(w - 1)
  }

  /** %d. */
  function Decimal(i: nat): (d: bytes)
    ensures d != []
  {
    if i < 10 then [ZERO + i] else Decimal(i / 10) + [ZERO + i % 10]
  }

  function Zeros(n: nat): bytes {
    seq(n, i => ZERO)
  }

  /** %0*d: at least w places, filled with zeros. */
  function Padded(i: nat, w: nat): bytes {
    if |Decimal(i)| >= w then Decimal(i) else Zeros(w - |Decimal(i)|) + Decimal(i)
  }

  /** The last w decimal digits of i. */
  function Digits(i: nat, w: nat): (d: bytes)
    ensures |d| == w
  {
    if w == 0 then [] else Digits(i / 10, w - 1) + [ZERO + i % 10]
  }

  lemma {:induction false} DigitsOfZero(w: nat)
    ensures Digits(0, w) == Zeros(w)
  {
    if w > 0 {
      DigitsOfZero(w - 1);
      assert Zeros(w) == Zeros(w - 1) + [ZERO];
    }
  }

  lemma {:induction false} PaddedIsDigits(i: nat, w: nat)
    requires w > 0 && i < Power10(w)
    ensures Padded(i, w) == Digits(i, w)
  {
    if i < 10 {
      DigitsOfZero(w - 1);
      assert Digits(i, w) == Digits(0, w - 1) + [ZERO + i];
      if w == 1 {
        assert Zeros(0) + Decimal(i) == Decimal(i);
      }
    } else {
      assert w > 1 by { assert Power10(1) == 10 * Power10(0); }
      PaddedIsDigits(i / 10, w - 1);
      if |Decimal(i)| < w {
        var n := w - |Decimal(i)|;
        assert Zeros(n) + Decimal(i) == Zeros(n) + Decimal(i / 10) + [ZERO + i % 10];
      }
    }
  }

  lemma {:induction false} LessExtends(a: bytes, b: bytes, x: bytes, y: bytes)
    requires |a| == |b| && Less(a, b)
    ensures Less(a + x, b + y)
  {
    assert (a + x)[0] == a[0] && (b + y)[0] == b[0];
    if a[0] == b[0] {
      LessExtends(a[1..], b[1..], x, y);
      assert (a + x)[1..] == a[1..] + x && (b + y)[1..] == b[1..] + y;
    }
  }

  /** Numbers of the same width are ordered like their digits. */
  lemma {:induction false} DigitsAscend(i: nat, j: nat, w: nat)
    requires i < j < Power10(w)
    ensures Less(Digits(i, w), Digits(j, w))
  {
    assert w > 0;
    var a, b := Digits(i / 10, w - 1), Digits(j / 10, w - 1);
    if i / 10 < j / 10 {
      DigitsAscend(i / 10, j / 10, w - 1);
      LessExtends(a, b, [ZERO + i % 10], [ZERO + j % 10]);
    } else {
      LessUnderPrefix(a, [ZERO + i % 10], [ZERO + j % 10]);
    }
  }

  predicate AllDigits(d: bytes) {
    forall x :: 0 <= x < |d| ==> ZERO <= d[x] < ZERO + 10
  }

  /** strconv.Atoi on digits. */
  function Atoi(d: bytes): int {
    if d == [] then 0 else 10 * Atoi(d[..|d| - 1]) + (d[|d| - 1] - ZERO)
  }

  lemma {:induction false} AtoiOfDigits(i: nat, w: nat)
    requires i < Power10(w)
    ensures AllDigits(Digits(i, w)) && Atoi(Digits(i, w)) == i
  {
    if w > 0 {
      AtoiOfDigits(i / 10, w - 1);
      assert Digits(i, w)[..w - 1] == Digits(i / 10, w - 1);
    }
  }

  // ----- signature keys

  /** ceil(log10(n)): the least number of digits that n different indices need. */
  function WidthFrom(n: nat, w: nat): (r: nat)
    ensures n <= Power10(r) && (r > w ==> Power10(r - 1) < n)
    decreases n - Power10(w)
  {
    if n <= Power10(w) then w else PowerGrows(w); WidthFrom(n, w + 1)
  }

  lemma PowerGrows(w: nat)
    ensures Power10(w) < Power10(w + 1)
  {
    PowerPositive(w);
  }

  lemma {:induction false} PowerPositive(w: nat)
    ensures Power10(w) > 0
  {
    if w > 0 {
      PowerPositive(w - 1);
    }
  }

  function Width(numParts: nat): nat {
    WidthFrom(numParts, 0)
  }

  function SigKey(idx: nat, numParts: nat): bytes {
    Ascii(SIG_KEY) + Padded(idx, Width(numParts))
  }

  function SigKeys(numParts: nat): (keys: seq<bytes>)
    ensures |keys| == numParts
  {
    seq(numParts, i requires 0 <= i => SigKey(i, numParts))
  }

  /** With one participant the width is zero and the only index still takes one place. */
  function Places(numParts: nat): nat {
    if Width(numParts) == 0 then 1 else Width(numParts)
  }

  lemma SigKeyDigits(idx: nat, numParts: nat)
    requires idx < numParts
    ensures idx < Power10(Places(numParts))
    ensures SigKey(idx, numParts) == Ascii(SIG_KEY) + Digits(idx, Places(numParts))
  {
    if Width(numParts) == 0 {
      assert Power10(0) == 1 && idx == 0;
      assert Power10(1) == 10 * Power10(0);
      assert Padded(0, 0) == Padded(0, 1);
    }
    PaddedIsDigits(idx, Places(numParts));
  }

  /** The part of a key after its last colon. */
  function AfterLastColon(key: bytes): bytes {
    if key == [] || key[|key| - 1] == COLON then [] else AfterLastColon(key[..|key| - 1]) + [key[|key| - 1]]
  }

  lemma {:induction false} AfterLastColonSplits(p: bytes, d: bytes)
    requires p != [] && p[|p| - 1] == COLON && AllDigits(d)
    ensures AfterLastColon(p + d) == d
  {
    if d == [] {
      assert p + d == p;
    } else {
      var n := |d| - 1;
      AfterLastColonSplits(p, d[..n]);
      assert (p + d)[..|p + d| - 1] == p + d[..n];
    }
  }

  /** sigKeyIndex: the index of a signature key, None for any other key. */
  function SigKeyIndex(key: bytes): Option<int> {
    var p := Ascii(SIG_KEY);
    if p <= key && |p| < |key| && AllDigits(key[|p|..]) then Some(Atoi(AfterLastColon(key))) else None
  }

  lemma SigKeyIndexRoundTrip(idx: nat, numParts: nat)
    requires idx < numParts
    ensures SigKeyIndex(SigKey(idx, numParts)) == Some(idx)
  {
    var p, d := Ascii(SIG_KEY), Digits(idx, Places(numParts));
    SigKeyDigits(idx, numParts);
    AtoiOfDigits(idx, Places(numParts));
    assert p[|p| - 1] == COLON;
    AfterLastColonSplits(p, d);
    assert (p + d)[|p|..] == d;
  }

  /** Exactly the keys of the signature prefix and at least one digit have an index, the number that the digits write. */
  lemma SigKeyIndexExact(key: bytes)
    ensures SigKeyIndex(key).Some? <==> exists d: bytes :: d != [] && AllDigits(d) && key == Ascii(SIG_KEY) + d
    ensures forall d: bytes :: d != [] && AllDigits(d) && key == Ascii(SIG_KEY) + d ==> SigKeyIndex(key) == Some(Atoi(d))
  {
    var p := Ascii(SIG_KEY);
    assert p[|p| - 1] == COLON;
    if p <= key {
      assert key == p + key[|p|..];
    }
    forall d: bytes | d != [] && AllDigits(d) && key == p + d
      ensures SigKeyIndex(key) == Some(Atoi(d))
    {
      assert key[|p|..] == d;
      AfterLastColonSplits(p, d);
    }
  }

  lemma SigKeysAscend(i: nat, j: nat, numParts: nat)
    requires i < j < numParts
    ensures Less(SigKey(i, numParts), SigKey(j, numParts))
  {
    SigKeyDigits(i, numParts);
    SigKeyDigits(j, numParts);
    DigitsAscend(i, j, Places(numParts));
    LessUnderPrefix(Ascii(SIG_KEY), Digits(i, Places(numParts)), Digits(j, Places(numParts)));
  }

  // ----- all keys of a channel

  /** The keys before the signatures, in the order in which ChannelIterator.Next decodes them. */
  function HeadKeys(): (keys: seq<bytes>)
    ensures |keys| == 6
  {
    [Ascii("current"), Ascii("index"), Ascii("params"), Ascii("parent"), Ascii("peers"), Ascii("phase")]
  }

  /** All keys of a channel in the order in which ChannelIterator.Next decodes them. */
  function ChannelKeys(numParts: nat): (keys: seq<bytes>)
    ensures |keys| == numParts + 7
  {
    HeadKeys() + SigKeys(numParts) + [Ascii("staging:state")]
  }

  lemma HeadAscends(i: nat)
    requires i < 5
    ensures Less(HeadKeys()[i], HeadKeys()[i + 1])
  {
    var keys := HeadKeys();
    match i
    case 0 => LessAt(keys[0], keys[1], 0);
    case 1 => LessAt(keys[1], keys[2], 0);
    case 2 => LessAt(keys[2], keys[3], 3);
    case 3 => LessAt(keys[3], keys[4], 1);
    case _ => LessAt(keys[4], keys[5], 1);
  }

  lemma SigKeyBetween(i: nat, numParts: nat)
    requires i < numParts
    ensures Less(Ascii("phase"), SigKey(i, numParts))
    ensures Less(SigKey(i, numParts), Ascii("staging:state"))
  {
    var key, state := SigKey(i, numParts), Ascii("staging:state");
    assert key[..12] == Ascii(SIG_KEY);
    assert key[0] == Ascii(SIG_KEY)[0] && key[9] == Ascii(SIG_KEY)[9];
    LessAt(Ascii("phase"), key, 0);
    forall x | 0 <= x < 9
      ensures key[x] == state[x]
    {
      assert key[x] == Ascii(SIG_KEY)[x];
      assert SIG_KEY[..9] == "staging:state"[..9];
      assert SIG_KEY[x] == "staging:state"[x];
    }
    LessAt(key, state, 9);
  }

  /** Key layout: for every number of participants a sorted iterator visits the keys of a channel in
      exactly the order in which they are decoded. */
  lemma ChannelKeysAscend(numParts: nat)
    ensures StrictlySorted(ChannelKeys(numParts))
  {
    var keys := ChannelKeys(numParts);
    forall i | 0 <= i < |keys| - 1
      ensures Less(keys[i], keys[i + 1])
    {
      if i < 5 {
        HeadAscends(i);
      } else if i == 5 {
        if numParts == 0 {
          LessAt(keys[5], keys[6], 0);
        } else {
          SigKeyBetween(0, numParts);
        }
      } else if i < numParts + 5 {
        SigKeysAscend(i - 6, i - 5, numParts);
      } else {
        SigKeyBetween(numParts - 1, numParts);
      }
    }
    SortedFromNeighbours(keys);
  }
}

/** Byte-wise order of keys and prefix ranges (pkg/sortedkv/key/key.go). */
module Keys {
  import opened Base

  /** Go's order on strings. */
  predicate Less(a: bytes, b: bytes) {
    b != [] && (a == [] || a[0] < b[0] || (a[0] == b[0] && Less(a[1..], b[1..])))
  }

  predicate LessEq(a: bytes, b: bytes) {
    a == b || Less(a, b)
  }

  lemma {:induction false} LessIrreflexive(a: bytes)
    ensures !Less(a, a)
  {
    if a != [] {
      LessIrreflexive(a[1..]);
    }
  }

  lemma {:induction false} LessTransitive(a: bytes, b: bytes, c: bytes)
    requires Less(a, b) && Less(b, c)
    ensures Less(a, c)
  {
    if a != [] && a[0] == b[0] && b[0] == c[0] {
      LessTransitive(a[1..], b[1..], c[1..]);
    }
  }

  lemma {:induction false} LessTotal(a: bytes, b: bytes)
    ensures Less(a, b) || a == b || Less(b, a)
  {
    if a != [] && b != [] && a[0] == b[0] {
      LessTotal(a[1..], b[1..]);
      assert a == [a[0]] + a[1..] && b == [b[0]] + b[1..];
    }
  }

  /** A common prefix does not matter. */
  lemma {:induction false} LessUnderPrefix(p: bytes, a: bytes, b: bytes)
    ensures Less(p + a, p + b) == Less(a, b)
  {
    if p == [] {
      assert p + a == a && p + b == b;
    } else {
      LessUnderPrefix(p[1..], a, b);
      assert (p + a)[1..] == p[1..] + a && (p + b)[1..] == p[1..] + b;
    }
  }

  lemma LessEqUnderPrefix(p: bytes, a: bytes, b: bytes)
    ensures LessEq(p + a, p + b) == LessEq(a, b)
  {
    LessUnderPrefix(p, a, b);
    assert (p + a)[|p|..] == a && (p + b)[|p|..] == b;
  }

  /** The first place where two keys differ decides. */
  lemma LessAt(a: bytes, b: bytes, i: nat)
    requires i < |a| && i < |b| && a[..i] == b[..i] && a[i] < b[i]
    ensures Less(a, b)
  {
    assert a == a[..i] + a[i..] && b == b[..i] + b[i..];
    LessUnderPrefix(a[..i], a[i..], b[i..]);
  }

  /** A key that is above one key with prefix q, without having that prefix itself, is above them all. */
  lemma {:induction false} AbovePrefix(q: bytes, x: bytes, y: bytes, k: bytes)
    requires LessEq(q + x, k) && !(q <= k)
    ensures Less(q + y, k)
  {
    assert q != [] && k != [];
    assert (q + x)[0] == q[0] == (q + y)[0];
    if k[0] == q[0] {
      assert (q + x)[1..] == q[1..] + x && (q + y)[1..] == q[1..] + y;
      assert q == [q[0]] + q[1..] && k == [k[0]] + k[1..];
      AbovePrefix(q[1..], x, y, k[1..]);
    }
  }

  // ----- prefix ranges

  /** Drops trailing 0xff bytes and increments what is then the last byte; empty if nothing is left. */
  function IncPrefix(p: bytes): bytes {
    if p == [] then []
    else if p[|p| - 1] == 255 then IncPrefix(p[..|p| - 1])
    else p[..|p| - 1] + [p[|p| - 1] + 1]
  }

  /** IncPrefix as the source computes it: increment in place from the end while bytes overflow. */
  method IncPrefixInPlace(key: bytes) returns (r: bytes)
    ensures r == IncPrefix(key)
  {
    var keyb := new byte[|key|](i requires 0 <= i < |key| => key[i]);
    var overflows := 0;
    var i := |key| - 1;
    assert key[..|key|] == key;
    while i >= 0
      invariant -1 <= i < |key| && overflows == |key| - 1 - i
      invariant forall x :: 0 <= x <= i ==> keyb[x] == key[x]
      invariant IncPrefix(key[..i + 1]) == IncPrefix(key)
      invariant key != [] ==> i >= 0
    {
      keyb[i] := if keyb[i] == 255 then 0 else keyb[i] + 1;
      assert key[..i + 1][..i] == key[..i];
      if keyb[i] > 0 {
        assert keyb[..i + 1] == key[..i] + [key[i] + 1];
        break;
      }
      overflows := overflows + 1;
      if i == 0 {
        assert key[..0] == [];
        return [];
      }
      i := i - 1;
    }
    assert key[..|key|] == key;
    r := keyb[..keyb.Length - overflows];
  }

  predicate InPrefixRange(p: bytes, k: bytes) {
    LessEq(p, k) && (IncPrefix(p) == [] || Less(k, IncPrefix(p)))
  }

  lemma {:induction false} PrefixBelow(p: bytes, k: bytes)
    requires p <= k
    ensures IncPrefix(p) == [] || Less(k, IncPrefix(p))
  {
    if p != [] {
      var q, c := p[..|p| - 1], p[|p| - 1];
      if c == 255 {
        PrefixBelow(q, k);
      } else {
        assert k == q + k[|q|..];
        LessUnderPrefix(q, k[|q|..], [c + 1]);
      }
    }
  }

  lemma NextByteAbove(c: byte, r: bytes)
    requires LessEq([c], r) && (r != [] ==> r[0] != c)
    ensures c < 255 && !Less(r, [c + 1])
  {
  }

  lemma {:induction false} NotPrefixAbove(p: bytes, k: bytes)
    requires LessEq(p, k) && !(p <= k)
    ensures IncPrefix(p) != [] && !Less(k, IncPrefix(p))
  {
    var q, c := p[..|p| - 1], p[|p| - 1];
    assert p == q + [c];
    if q <= k {
      var r := k[|q|..];
      assert k == q + r;
      LessEqUnderPrefix(q, [c], r);
      assert r != [] ==> k[..|p|] == q + [r[0]];
      NextByteAbove(c, r);
      LessUnderPrefix(q, r, [c + 1]);
    } else {
      AbovePrefix(q, [c], if c < 255 then [c + 1] else [], k);
      if c == 255 {
        assert q + [] == q;
        NotPrefixAbove(q, k);
      } else {
        NotBoth(k, q + [c + 1]);
      }
    }
  }

  lemma NotBoth(a: bytes, b: bytes)
    requires Less(b, a)
    ensures !Less(a, b)
  {
    if Less(a, b) {
      LessTransitive(a, b, a);
      LessIrreflexive(a);
    }
  }

  /** A prefix range holds exactly the keys with that prefix. */
  lemma PrefixRangeExact(p: bytes, k: bytes)
    ensures InPrefixRange(p, k) <==> p <= k
  {
    if p <= k {
      PrefixBelow(p, k);
      assert k == p + k[|p|..] && p == p + [];
      LessEqUnderPrefix(p, [], k[|p|..]);
    } else if LessEq(p, k) {
      NotPrefixAbove(p, k);
    }
  }

  /** What lies between two keys with a common prefix has that prefix. */
  lemma BetweenHasPrefix(p: bytes, a: bytes, b: bytes, k: bytes)
    requires LessEq(p + a, k) && Less(k, p + b)
    ensures p <= k
  {
    if !(p <= k) {
      AbovePrefix(p, a, b, k);
      NotBoth(k, p + b);
    }
  }

  // ----- sorted enumerations

  predicate StrictlySorted(s: seq<bytes>) {
    forall i, j :: 0 <= i < j < |s| ==> Less(s[i], s[j])
  }

  /** s lists the elements of ks in order, each once. */
  ghost predicate Enumerates(s: seq<bytes>, ks: set<bytes>) {
    StrictlySorted(s) && forall k :: k in s <==> k in ks
  }

  /** There is only one way to list a set of keys in order. */
  lemma {:induction false} EnumerationUnique(s: seq<bytes>, t: seq<bytes>, ks: set<bytes>)
    requires Enumerates(s, ks) && Enumerates(t, ks)
    ensures s == t
    decreases |s|
  {
    assert t != [] ==> t[0] in ks;
    if s != [] {
      assert s[0] in ks;
      assert s[0] in t;
      FirstIsFirst(s, t, ks);
      forall k
        ensures k in s[1..] <==> k in ks - {s[0]}
        ensures k in t[1..] <==> k in ks - {s[0]}
      {
        LessIrreflexive(s[0]);
        assert s == [s[0]] + s[1..] && t == [t[0]] + t[1..];
        if k in s[1..] { var i :| 0 <= i < |s[1..]| && s[1..][i] == k; assert Less(s[0], s[i + 1]); }
        if k in t[1..] { var i :| 0 <= i < |t[1..]| && t[1..][i] == k; assert Less(t[0], t[i + 1]); }
      }
      EnumerationUnique(s[1..], t[1..], ks - {s[0]});
    }
  }

  lemma FirstIsFirst(s: seq<bytes>, t: seq<bytes>, ks: set<bytes>)
    requires Enumerates(s, ks) && Enumerates(t, ks) && s != [] && t != []
    ensures s[0] == t[0]
  {
    assert s[0] in ks && t[0] in ks;
    assert s[0] in t && t[0] in s;
    var i :| 0 <= i < |t| && t[i] == s[0];
    var j :| 0 <= j < |s| && s[j] == t[0];
    if i > 0 && j > 0 {
      assert Less(t[0], t[i]) && Less(s[0], s[j]);
      NotBoth(s[0], t[0]);
    }
  }

  /** Neighbours in order are enough. */
  lemma {:induction false} SortedFromNeighbours(s: seq<bytes>)
    requires forall i :: 0 <= i < |s| - 1 ==> Less(s[i], s[i + 1])
    ensures StrictlySorted(s)
  {
    if |s| > 1 {
      var n := |s| - 1;
      SortedFromNeighbours(s[..n]);
      forall i, j | 0 <= i < j < |s|
        ensures Less(s[i], s[j])
      {
        if j < n {
          assert s[..n][i] == s[i] && s[..n][j] == s[j];
        } else if i < n - 1 {
          assert s[..n][i] == s[i] && s[..n][n - 1] == s[n - 1];
          LessTransitive(s[i], s[n - 1], s[n]);
        }
      }
    }
  }

  /** Inserts a key that is not there yet at its place. */
  method InsertSorted(s: seq<bytes>, k: bytes) returns (r: seq<bytes>)
    requires StrictlySorted(s) && k !in s
    ensures StrictlySorted(r) && multiset(r) == multiset(s) + multiset{k}
  {
    var i := 0;
    while i < |s| && Less(s[i], k)
      invariant i <= |s|
      invariant forall x :: 0 <= x < i ==> Less(s[x], k)
    {
      i := i + 1;
    }
    r := s[..i] + [k] + s[i..];
    assert s == s[..i] + s[i..];
    forall y | i <= y < |s|
      ensures Less(k, s[y])
    {
      LessTotal(s[i], k);
      if y > i {
        LessTransitive(k, s[i], s[y]);
      }
    }
    InsertedSorted(s, k, i);
  }

  lemma InsertedSorted(s: seq<bytes>, k: bytes, i: nat)
    requires StrictlySorted(s) && i <= |s|
    requires forall x :: 0 <= x < i ==> Less(s[x], k)
    requires forall y :: i <= y < |s| ==> Less(k, s[y])
    ensures StrictlySorted(s[..i] + [k] + s[i..])
  {
    var r := s[..i] + [k] + s[i..];
    forall x, y | 0 <= x < y < |r|
      ensures Less(r[x], r[y])
    {
      assert x < i ==> r[x] == s[x];
      assert y > i ==> r[y] == s[y - 1];
      assert x > i ==> r[x] == s[x - 1];
      assert y < i ==> r[y] == s[y];
    }
  }

  /** sort.Strings on distinct keys. */
  method SortKeys(keys: seq<bytes>) returns (r: seq<bytes>)
    requires forall i, j :: 0 <= i < j < |keys| ==> keys[i] != keys[j]
    ensures StrictlySorted(r) && multiset(r) == multiset(keys)
  {
    r := [];
    for i := 0 to |keys|
      invariant StrictlySorted(r) && multiset(r) == multiset(keys[..i])
    {
      assert keys[i] !in keys[..i];
      assert keys[i] in r <==> keys[i] in multiset(r);
      assert keys[i] in keys[..i] <==> keys[i] in multiset(keys[..i]);
      r := InsertSorted(r, keys[i]);
      assert keys[..i + 1] == keys[..i] + [keys[i]];
    }
    assert keys[..|keys|] == keys;
  }
}

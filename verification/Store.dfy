/** The in-memory sorted store, its batches and prefixed tables (pkg/sortedkv/memorydb, pkg/sortedkv/table.go). */
module Store {
  import opened Base
  import opened Keys

  type Data = map<bytes, bytes>

  /** An iterator over keys and values collected when it was created; next counts the calls of Next. */
  datatype Iter = Iter(keys: seq<bytes>, values: seq<bytes>, next: nat)

  /** The iterator lists exactly the entries of data with keys in ks, in key order. */
  ghost predicate Lists(it: Iter, data: Data, ks: set<bytes>) {
    && it.next == 0
    && Enumerates(it.keys, ks)
    && |it.values| == |it.keys|
    && forall i :: 0 <= i < |it.keys| ==> it.keys[i] in data && it.values[i] == data[it.keys[i]]
  }

  /** There is only one such iterator. */
  lemma ListsOnce(a: Iter, b: Iter, data: Data, ks: set<bytes>)
    requires Lists(a, data, ks) && Lists(b, data, ks)
    ensures a == b
  {
    EnumerationUnique(a.keys, b.keys, ks);
    assert a.values == b.values;
  }

  function InRange(data: Data, start: bytes, end: bytes): set<bytes> {
    set k | k in data && LessEq(start, k) && (end == [] || Less(k, end))
  }

  function WithPrefix(data: Data, p: bytes): set<bytes> {
    set k | k in data && p <= k
  }

  /** A listing with a prefix has exactly the stored keys that continue it, the prefix itself included; it is the range from the prefix
      up to its increment. */
  lemma PrefixListing(data: Data, p: bytes)
    ensures forall k :: k in WithPrefix(data, p) <==> k in data && exists rest: bytes :: k == p + rest
    ensures WithPrefix(data, p) == InRange(data, p, IncPrefix(p))
  {
    forall k
      ensures k in WithPrefix(data, p) <==> k in data && exists rest: bytes :: k == p + rest
    {
      if p <= k {
        assert k == p + k[|p|..];
      }
    }
    forall k
      ensures k in WithPrefix(data, p) <==> k in InRange(data, p, IncPrefix(p))
    {
      PrefixRangeExact(p, k);
    }
  }

  class MemoryDb {
    var data: Data

    constructor ()
      ensures data == map[]
    {
      data := map[];
    }

    method Has(key: bytes) returns (has: bool)
      ensures has <==> key in data
    {
      has := key in data;
    }

    method Get(key: bytes) returns (value: Option<bytes>)
      ensures value == if key in data then Some(data[key]) else None
    {
      value := if key in data then Some(data[key]) else None;
    }

    method Put(key: bytes, value: bytes)
      modifies this
      ensures data == old(data)[key := value]
    {
      data := data[key := value];
    }

    method Delete(key: bytes) returns (ok: bool)
      modifies this
      ensures ok <==> key in old(data)
      ensures data == old(data) - {key}
    {
      if key !in data {
        assert data - {key} == data;
        return false;
      }
      data := data - {key};
      ok := true;
    }

    /** Collects the chosen keys in whatever order the map yields them, sorts them and reads their values. */
    method Collect(chosen: set<bytes>) returns (it: Iter)
      requires chosen <= data.Keys
      ensures Lists(it, data, chosen)
    {
      var keys: seq<bytes> := [];
      var left := chosen;
      while left != {}
        invariant left <= chosen
        invariant forall i, j :: 0 <= i < j < |keys| ==> keys[i] != keys[j]
        invariant forall k :: k in keys <==> k in chosen - left
        decreases left
      {
        var k :| k in left;
        assert k !in keys;
        keys := keys + [k];
        left := left - {k};
      }
      var sorted := SortKeys(keys);
      forall k
        ensures k in sorted <==> k in chosen
      {
        assert k in sorted <==> k in multiset(sorted);
        assert k in keys <==> k in multiset(keys);
      }
      var values: seq<bytes> := [];
      for i := 0 to |sorted|
        invariant |values| == i
        invariant forall x :: 0 <= x < i ==> sorted[x] in data && values[x] == data[sorted[x]]
      {
        assert sorted[i] in chosen;
        values := values + [data[sorted[i]]];
      }
      it := Iter(sorted, values, 0);
    }

    method NewIterator() returns (it: Iter)
      ensures Lists(it, data, data.Keys)
    {
      it := Collect(data.Keys);
    }

    method NewIteratorWithRange(start: bytes, end: bytes) returns (it: Iter)
      ensures Lists(it, data, InRange(data, start, end))
    {
      it := Collect(InRange(data, start, end));
    }

    method NewIteratorWithPrefix(p: bytes) returns (it: Iter)
      ensures Lists(it, data, WithPrefix(data, p))
    {
      it := Collect(WithPrefix(data, p));
    }
  }

  // ----- batches

  datatype Write = PutOp(key: bytes, value: bytes) | DeleteOp(key: bytes)

  function ApplyWrite(data: Data, w: Write): Data {
    match w
    case PutOp(k, v) => data[k := v]
    case DeleteOp(k) => data - {k}
  }

  /** The operations of a batch performed one after the other, directly on the database. */
  function Replay(data: Data, log: seq<Write>): Data {
    if log == [] then data else ApplyWrite(Replay(data, log[..|log| - 1]), log[|log| - 1])
  }

  /** The two maps a batch has gathered after a sequence of operations. */
  function Gathered(log: seq<Write>): (Data, set<bytes>) {
    if log == [] then (map[], {})
    else
      var (writes, deletes) := Gathered(log[..|log| - 1]);
      match log[|log| - 1]
      case PutOp(k, v) => (writes[k := v], deletes - {k})
      case DeleteOp(k) => (writes - {k}, deletes + {k})
  }

  lemma {:induction false} GatheredDisjoint(log: seq<Write>)
    ensures Gathered(log).0.Keys !! Gathered(log).1
  {
    if log != [] {
      GatheredDisjoint(log[..|log| - 1]);
    }
  }

  lemma PutLast(data: Data, w: Data, d: set<bytes>, k: bytes, v: bytes)
    ensures data + w[k := v] - (d - {k}) == (data + w - d)[k := v]
  {
  }

  lemma DeleteLast(data: Data, w: Data, d: set<bytes>, k: bytes)
    ensures data + (w - {k}) - (d + {k}) == data + w - d - {k}
  {
  }

  /** All writes and then all deletes, in any order, are the same as the operations in their order. */
  lemma {:induction false} BatchIsReplay(data: Data, log: seq<Write>)
    ensures data + Gathered(log).0 - Gathered(log).1 == Replay(data, log)
  {
    var (writes, deletes) := Gathered(log);
    if log == [] {
      assert data + map[] - {} == data;
    } else {
      var (w, d) := Gathered(log[..|log| - 1]);
      BatchIsReplay(data, log[..|log| - 1]);
      match log[|log| - 1]
      case PutOp(k, v) => PutLast(data, w, d, k, v);
      case DeleteOp(k) => DeleteLast(data, w, d, k);
    }
  }

  /** What a failed batch leaves behind: all its writes are in, and some of the deletions, none of a missing key. */
  predicate PartlyApplied(before: Data, after: Data, writes: Data, deletes: set<bytes>, gone: set<bytes>) {
    gone < deletes && gone <= before.Keys && after == before + writes - gone
  }

  class Batch {
    const db: MemoryDb
    var writes: Data
    var deletes: set<bytes>
    ghost var log: seq<Write>

    ghost predicate Valid()
      reads this
    {
      (writes, deletes) == Gathered(log)
    }

    constructor (db: MemoryDb)
      ensures Valid() && this.db == db && log == []
    {
      this.db := db;
      writes, deletes, log := map[], {}, [];
    }

    method Reset()
      modifies this
      ensures Valid() && log == []
    {
      writes, deletes, log := map[], {}, [];
    }

    method Put(key: bytes, value: bytes)
      requires Valid()
      modifies this
      ensures Valid() && log == old(log) + [PutOp(key, value)]
    {
      deletes := deletes - {key};
      writes := writes[key := value];
      log := log + [PutOp(key, value)];
      assert log[..|log| - 1] == old(log);
    }

    method Delete(key: bytes)
      requires Valid()
      modifies this
      ensures Valid() && log == old(log) + [DeleteOp(key)]
    {
      writes := writes - {key};
      deletes := deletes + {key};
      log := log + [DeleteOp(key)];
      assert log[..|log| - 1] == old(log);
    }

    /** Succeeds exactly if everything still to be deleted is in the database, and then equals replaying
        the batch's operations in order; there is no rollback. */
    method Apply() returns (ok: bool)
      requires Valid()
      modifies db
      ensures ok <==> Gathered(log).1 <= old(db.data).Keys
      ensures ok ==> db.data == Replay(old(db.data), log)
      ensures !ok ==> exists gone :: PartlyApplied(old(db.data), db.data, Gathered(log).0, Gathered(log).1, gone)
    {
      GatheredDisjoint(log);
      ghost var start := db.data;
      var left := writes.Keys;
      while left != {}
        invariant left <= writes.Keys
        invariant db.data.Keys == start.Keys + (writes.Keys - left)
        invariant forall k :: k in db.data ==> db.data[k] == if k in writes.Keys - left then writes[k] else start[k]
        decreases left
      {
        var k :| k in left;
        db.Put(k, writes[k]);
        left := left - {k};
      }
      assert db.data == start + writes;
      var gone := deletes;
      while gone != {}
        invariant gone <= deletes && deletes - gone <= start.Keys
        invariant db.data == start + writes - (deletes - gone)
        decreases gone
      {
        var k :| k in gone;
        var had := db.Delete(k);
        if !had {
          assert k !in start && k !in deletes - gone;
          assert PartlyApplied(start, db.data, writes, deletes, deletes - gone);
          return false;
        }
        gone := gone - {k};
        assert deletes - gone == deletes - (gone + {k}) + {k};
      }
      assert deletes - {} == deletes;
      BatchIsReplay(start, log);
      ok := true;
    }
  }

  // ----- tables

  /** What follows the prefix in the keys that have it. */
  ghost function Tails(keys: set<bytes>, p: bytes): set<bytes> {
    if keys == {} then {}
    else
      var k :| k in keys;
      Tails(keys - {k}, p) + if p <= k then {k[|p|..]} else {}
  }

  lemma {:induction false} TailsOf(keys: set<bytes>, p: bytes, s: bytes)
    ensures s in Tails(keys, p) <==> p + s in keys
  {
    if keys != {} {
      var k :| k in keys && Tails(keys, p) == Tails(keys - {k}, p) + if p <= k then {k[|p|..]} else {};
      TailsOf(keys - {k}, p, s);
      assert (p + s)[|p|..] == s && p <= p + s;
      assert p <= k ==> k == p + k[|p|..];
    }
  }

  /** The value under a key, where there is one. */
  function At(data: Data, k: bytes): bytes {
    if k in data then data[k] else []
  }

  /** The independent map that a table with prefix p stands for. */
  ghost function View(data: Data, p: bytes): Data {
    map s | s in Tails(data.Keys, p) :: At(data, p + s)
  }

  lemma ViewKeys(data: Data, p: bytes, s: bytes)
    ensures s in View(data, p) <==> p + s in data
    ensures s in View(data, p) ==> View(data, p)[s] == data[p + s]
  {
    TailsOf(data.Keys, p, s);
  }

  predicate Incomparable(p: bytes, q: bytes) {
    !(p <= q) && !(q <= p)
  }

  lemma IncomparableKeys(p: bytes, q: bytes, a: bytes, b: bytes)
    requires Incomparable(p, q)
    ensures p + a != q + b
  {
    assert (p + a)[..|p|] == p && (q + b)[..|q|] == q;
    if |p| <= |q| {
      assert (q + b)[..|p|] == q[..|p|];
    } else {
      assert (p + a)[..|q|] == p[..|q|];
    }
  }

  lemma PrefixInjective(p: bytes, a: bytes, b: bytes)
    requires p + a == p + b
    ensures a == b
  {
    assert (p + a)[|p|..] == a && (p + b)[|p|..] == b;
  }

  lemma PrefixesAssociate(p: bytes, q: bytes, s: bytes)
    ensures p + (q + s) == p + q + s
  {
  }

  /** A table of a table is the table with both prefixes. */
  lemma NestedView(data: Data, p: bytes, q: bytes, s: bytes)
    ensures q + s in View(data, p) <==> s in View(data, p + q)
  {
    PrefixesAssociate(p, q, s);
    ViewKeys(data, p, q + s);
    ViewKeys(data, p + q, s);
  }

  /** A write through a table is that write on the table's own map. */
  lemma TableWrite(data: Data, p: bytes, w: Write)
    ensures View(ApplyWrite(data, w.(key := p + w.key)), p) == ApplyWrite(View(data, p), w)
  {
    var after, own := ApplyWrite(data, w.(key := p + w.key)), ApplyWrite(View(data, p), w);
    forall s
      ensures s in View(after, p) <==> s in own
      ensures s in View(after, p) ==> View(after, p)[s] == own[s]
    {
      ViewKeys(data, p, s);
      ViewKeys(after, p, s);
      if p + w.key == p + s {
        PrefixInjective(p, w.key, s);
      }
    }
  }

  /** A write through one table is not seen through a table with an incomparable prefix. */
  lemma TablesAreIndependent(data: Data, p: bytes, q: bytes, w: Write)
    requires Incomparable(p, q)
    ensures View(ApplyWrite(data, w.(key := p + w.key)), q) == View(data, q)
  {
    var after := ApplyWrite(data, w.(key := p + w.key));
    forall s
      ensures s in View(after, q) <==> s in View(data, q)
      ensures s in View(after, q) ==> View(after, q)[s] == View(data, q)[s]
    {
      ViewKeys(data, q, s);
      ViewKeys(after, q, s);
      IncomparableKeys(p, q, w.key, s);
    }
  }

  /** The operations of a table's batch as they reach the database. */
  function Prefixed(p: bytes, log: seq<Write>): (r: seq<Write>)
    ensures |r| == |log|
  {
    seq(|log|, i requires 0 <= i < |log| => log[i].(key := p + log[i].key))
  }

  /** A batch of a table is replayed on the table's own map, and seen through no incomparable table. */
  lemma {:induction false} TableReplay(data: Data, p: bytes, log: seq<Write>, q: bytes)
    ensures View(Replay(data, Prefixed(p, log)), p) == Replay(View(data, p), log)
    ensures Incomparable(p, q) ==> View(Replay(data, Prefixed(p, log)), q) == View(data, q)
  {
    if log != [] {
      var init, last := log[..|log| - 1], log[|log| - 1];
      TableReplay(data, p, init, q);
      var full := Prefixed(p, log);
      assert full[..|full| - 1] == Prefixed(p, init) && full[|full| - 1] == last.(key := p + last.key);
      var mid := Replay(data, Prefixed(p, init));
      TableWrite(mid, p, last);
      if Incomparable(p, q) {
        TablesAreIndependent(mid, p, q, last);
      }
    }
  }

  predicate OnlyPuts(log: seq<Write>) {
    forall i :: 0 <= i < |log| ==> log[i].PutOp?
  }

  lemma {:induction false} PutsDeleteNothing(log: seq<Write>)
    requires OnlyPuts(log)
    ensures Gathered(log).1 == {}
  {
    if log != [] {
      PutsDeleteNothing(log[..|log| - 1]);
    }
  }

  lemma PrefixedDeletesNothing(p: bytes, log: seq<Write>)
    requires OnlyPuts(log)
    ensures Gathered(Prefixed(p, log)).1 == {}
  {
    PutsDeleteNothing(Prefixed(p, log));
  }

  /** The keys of an iterator as the table shows them. */
  function Stripped(it: Iter, n: nat): Iter
    requires forall i :: 0 <= i < |it.keys| ==> n <= |it.keys[i]|
  {
    it.(keys := seq(|it.keys|, i requires 0 <= i < |it.keys| => it.keys[i][n..]))
  }

  /** If an iterator lists keys that all have prefix p, stripping it lists the table's map. */
  lemma StrippedLists(it: Iter, data: Data, p: bytes, full: set<bytes>, ks: set<bytes>)
    requires Lists(it, data, full)
    requires forall k :: k in full ==> p <= k
    requires forall s :: p + s in full <==> s in ks
    ensures forall i :: 0 <= i < |it.keys| ==> |p| <= |it.keys[i]|
    ensures Lists(Stripped(it, |p|), View(data, p), ks)
  {
    forall i | 0 <= i < |it.keys|
      ensures p <= it.keys[i] && it.keys[i] == p + it.keys[i][|p|..]
    {
      assert it.keys[i] in full;
    }
    var t := Stripped(it, |p|);
    forall i, j | 0 <= i < j < |t.keys|
      ensures Less(t.keys[i], t.keys[j])
    {
      LessUnderPrefix(p, t.keys[i], t.keys[j]);
      assert it.keys[i] == p + t.keys[i] && it.keys[j] == p + t.keys[j];
    }
    forall s
      ensures s in t.keys <==> s in ks
    {
      if s in ks {
        var i :| 0 <= i < |it.keys| && it.keys[i] == p + s;
        assert t.keys[i] == s;
      }
      if s in t.keys {
        var i :| 0 <= i < |t.keys| && t.keys[i] == s;
        assert it.keys[i] == p + s && it.keys[i] in full;
      }
    }
    forall i | 0 <= i < |t.keys|
      ensures t.keys[i] in View(data, p) && t.values[i] == View(data, p)[t.keys[i]]
    {
      ViewKeys(data, p, t.keys[i]);
      assert it.keys[i] == p + t.keys[i];
    }
  }

  /** The range of the table's map, as keys of the database. */
  lemma TableRange(data: Data, p: bytes, start: bytes, end: bytes, k: bytes)
    ensures k in InRange(data, p + start, if end == [] then IncPrefix(p) else p + end) <==>
              p <= k && k[|p|..] in InRange(View(data, p), start, end)
  {
    if p <= k {
      var s := k[|p|..];
      assert k == p + s;
      ViewKeys(data, p, s);
      LessEqUnderPrefix(p, start, s);
      LessUnderPrefix(p, s, end);
      PrefixRangeExact(p, k);
    } else if LessEq(p + start, k) {
      if end == [] {
        PrefixRangeExact(p, k);
        AbovePrefix(p, start, [], k);
        assert p + [] == p;
      } else if Less(k, p + end) {
        BetweenHasPrefix(p, start, end, k);
      }
    }
  }

  /** A view of the database in which every key is prefixed. */
  class Table {
    const db: MemoryDb
    const prefix: bytes

    constructor (db: MemoryDb, prefix: bytes)
      ensures this.db == db && this.prefix == prefix
    {
      this.db, this.prefix := db, prefix;
    }

    method Get(key: bytes) returns (value: Option<bytes>)
      ensures value == if key in View(db.data, prefix) then Some(View(db.data, prefix)[key]) else None
    {
      ViewKeys(db.data, prefix, key);
      value := db.Get(prefix + key);
    }

    method Put(key: bytes, value: bytes)
      modifies db
      ensures db.data == old(db.data)[prefix + key := value]
    {
      db.Put(prefix + key, value);
    }

    /** Exactly the sorted range of the table's own map. */
    method NewIteratorWithRange(start: bytes, end: bytes) returns (it: Iter)
      ensures Lists(it, View(db.data, prefix), InRange(View(db.data, prefix), start, end))
    {
      var last := if end == [] then IncPrefix(prefix) else prefix + end;
      it := db.NewIteratorWithRange(prefix + start, last);
      ghost var full := InRange(db.data, prefix + start, last);
      ghost var ks := InRange(View(db.data, prefix), start, end);
      forall k
        ensures k in full <==> prefix <= k && k[|prefix|..] in ks
      {
        TableRange(db.data, prefix, start, end, k);
      }
      forall s
        ensures prefix + s in full <==> s in ks
      {
        assert (prefix + s)[|prefix|..] == s;
      }
      StrippedLists(it, db.data, prefix, full, ks);
      it := Stripped(it, |prefix|);
    }

    /** All of the table's map. */
    method NewIterator() returns (it: Iter)
      ensures Lists(it, View(db.data, prefix), View(db.data, prefix).Keys)
    {
      it := NewIteratorWithPrefix([]);
      assert WithPrefix(View(db.data, prefix), []) == View(db.data, prefix).Keys;
    }

    /** The keys of the table's map that start with p. */
    method NewIteratorWithPrefix(p: bytes) returns (it: Iter)
      ensures Lists(it, View(db.data, prefix), WithPrefix(View(db.data, prefix), p))
    {
      it := db.NewIteratorWithPrefix(prefix + p);
      ghost var full := WithPrefix(db.data, prefix + p);
      ghost var ks := WithPrefix(View(db.data, prefix), p);
      forall s
        ensures prefix + s in full <==> s in ks
      {
        ViewKeys(db.data, prefix, s);
        assert (prefix + s)[|prefix|..] == s;
        assert p <= s ==> prefix + p <= prefix + s by {
          if p <= s { assert (prefix + s)[..|prefix + p|] == prefix + p; }
        }
        if prefix + p <= prefix + s {
          assert s[..|p|] == (prefix + s)[..|prefix + p|][|prefix|..] == p;
        }
      }
      forall k | k in full
        ensures prefix <= k
      {
        assert k[..|prefix|] == k[..|prefix + p|][..|prefix|] == prefix;
      }
      StrippedLists(it, db.data, prefix, full, ks);
      it := Stripped(it, |prefix|);
    }
  }
}

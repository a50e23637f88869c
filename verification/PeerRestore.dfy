/** Restoring all channels that are shared with a peer (channel/persistence/keyvalue/restorer.go). */
module PeerRestore {
  import opened Base
  import opened Allocations
  import opened States
  import opened Codec
  import opened Wire
  import opened KeyLayout
  import opened Keys
  import opened Store
  import opened Persistence
  import opened Restore
  import opened ChannelIterators
  import opened KeyValue

  /** The prefix of a peer's entries in the peer table, as peerChannelsKey builds it. */
  function PeerPrefix(addr: Address): bytes {
    PeerDB() + (addr + Ascii(":channel:"))
  }

  /** The entry that ChannelCreated writes for a peer is the channel's ID below the peer's prefix. */
  lemma PeerEntry(data: Data, addr: Address, id: ID)
    ensures PeerKey(addr, id) in View(data, PeerDB()) <==> id in View(data, PeerPrefix(addr))
  {
    NestedView(data, PeerDB(), addr + Ascii(":channel:"), id);
  }

  /** The iterator has exactly one channel left, which decodes to r. */
  ghost predicate HoldsOne(d: Decoders, it: Iter, r: Restored) {
    it.next == 0 && DecodeChannel(d, it.values) == Some(r) && |it.values| == |r.params.parts| + 7
  }

  lemma HoldsDelivered(d: Decoders, it: Iter, r: Restored)
    requires HoldsOne(d, it, r)
    ensures IsChannel(d, it.values) && Delivered(d, it.values) && !ErrorPending(d, it.values) && ChannelOf(d, it.values) == r
  {
    DecodesIff(d, it.values);
  }

  /** Calling Next until there are no more channels collects all of them in order. */
  method Drain(it: ChannelIterator, ghost want: seq<Restored>) returns (r: seq<Restored>, ok: bool)
    requires !it.err && |it.its| == |want| && forall i :: 0 <= i < |want| ==> HoldsOne(it.decoders, it.its[i], want[i])
    modifies it
    ensures ok && r == want
  {
    ghost var its := it.its;
    ghost var vss := seq(|its|, i requires 0 <= i < |its| => its[i].values);
    forall i | 0 <= i < |vss|
      ensures IsChannel(it.decoders, vss[i]) && Delivered(it.decoders, vss[i]) && !ErrorPending(it.decoders, vss[i])
      ensures ChannelOf(it.decoders, vss[i]) == want[i]
    {
      HoldsDelivered(it.decoders, its[i], want[i]);
    }
    r, ok := Iterate(it, vss);
  }

  /** An iterator over the channel whose ID the entry starts with. */
  ghost predicate ListsChannel(it: Iter, channels: Data, entry: bytes) {
    |entry| >= ID_LEN && Lists(it, channels, WithPrefix(channels, entry[..ID_LEN]))
  }

  method OpenChannel(chandb: Table, entry: bytes) returns (it: Option<Iter>)
    ensures it.Some? <==> |entry| >= ID_LEN
    ensures it.Some? ==> ListsChannel(it.value, View(chandb.db.data, chandb.prefix), entry)
  {
    var id := DecID(entry);
    if id.Failed? {
      return None;
    }
    var next := chandb.NewIteratorWithPrefix(id.value);
    it := Some(next);
  }

  method OpenChannels(chandb: Table, entries: seq<bytes>) returns (its: seq<Iter>, ok: bool)
    ensures ok <==> forall i :: 0 <= i < |entries| ==> |entries[i]| >= ID_LEN
    ensures ok ==> |its| == |entries|
    ensures ok ==> forall i :: 0 <= i < |entries| ==> ListsChannel(its[i], View(chandb.db.data, chandb.prefix), entries[i])
  {
    its := [];
    for i := 0 to |entries|
      invariant |its| == i && forall x :: 0 <= x < i ==> |entries[x]| >= ID_LEN
      invariant forall x :: 0 <= x < i ==> ListsChannel(its[x], View(chandb.db.data, chandb.prefix), entries[x])
    {
      var next := OpenChannel(chandb, entries[i]);
      if next.None? {
        return its, false;
      }
      its := its + [next.value];
    }
    ok := true;
  }

  /** RestorePeer: one iterator per entry of the peer, each over the prefix of a channel ID. Fails at an entry
      that is too short for an ID. */
  method RestorePeer(pr: PersistRestorer, addr: Address) returns (it: ChannelIterator, ok: bool, ghost keys: seq<bytes>)
    ensures fresh(it) && it.decoders == pr.decoders && !it.err
    ensures Enumerates(keys, View(pr.db.data, PeerPrefix(addr)).Keys)
    ensures ok <==> forall i :: 0 <= i < |keys| ==> |keys[i]| >= ID_LEN
    ensures ok ==> |it.its| == |keys|
    ensures ok ==> forall i :: 0 <= i < |keys| ==> ListsChannel(it.its[i], Channels(pr.db.data), keys[i])
  {
    var chandb := new Table(pr.db, ChannelDB());
    var peerdb := new Table(pr.db, PeerPrefix(addr));
    var entries := peerdb.NewIterator();
    keys := entries.keys;
    var its;
    its, ok := OpenChannels(chandb, entries.keys);
    it := new ChannelIterator(pr.decoders, its);
  }

  /** Every entry of the peer stands for a channel that is stored in the channel table. */
  ghost predicate PeerStored(bk: Backend, data: Data, addr: Address, stored: map<ID, Stored>) {
    forall id :: id in View(data, PeerPrefix(addr)) ==>
      && id in stored && stored[id].src.m.params.id == id
      && StoredInv(bk, stored[id]) && stored[id].data == Channels(data)
  }

  lemma StoredHoldsOne(bk: Backend, s: Stored, it: Iter)
    requires StoredInv(bk, s) && Lists(it, s.data, WithPrefix(s.data, s.src.m.params.id))
    ensures HoldsOne(WireDecoders(bk), it, RestoredFrom(s.src, s.slots)) && Matches(RestoredFrom(s.src, s.slots), s)
  {
    StoredRestores(bk, s, it);
    SortedValues(s.data, s.src, s.slots, it);
    ValuesRoundTrip(bk, s.src, s.slots, []);
    assert it.values + [] == it.values;
  }

  ghost function Wanted(ids: seq<ID>, stored: map<ID, Stored>): (want: seq<Restored>)
    requires forall i :: 0 <= i < |ids| ==> ids[i] in stored
    ensures |want| == |ids|
  {
    seq(|ids|, i requires 0 <= i < |ids| => RestoredFrom(stored[ids[i]].src, stored[ids[i]].slots))
  }

  /** Reconnecting to a peer restores each channel shared with it once, in the order of their IDs, to the machine
      that was persisted. */
  method RestoreChannels(pr: PersistRestorer, bk: Backend, addr: Address, ghost stored: map<ID, Stored>)
    returns (r: seq<Restored>, ok: bool, ghost ids: seq<ID>)
    requires pr.decoders == WireDecoders(bk) && PeerStored(bk, pr.db.data, addr, stored)
    ensures ok && Enumerates(ids, View(pr.db.data, PeerPrefix(addr)).Keys) && |r| == |ids|
    ensures forall i :: 0 <= i < |ids| ==> ids[i] in stored && Matches(r[i], stored[ids[i]])
  {
    var it;
    it, ok, ids := RestorePeer(pr, addr);
    forall i | 0 <= i < |ids|
      ensures ids[i] in stored && |ids[i]| == ID_LEN && ids[i][..ID_LEN] == ids[i]
      ensures StoredInv(bk, stored[ids[i]]) && stored[ids[i]].src.m.params.id == ids[i]
      ensures stored[ids[i]].data == Channels(pr.db.data)
    {
      assert ids[i] in View(pr.db.data, PeerPrefix(addr)).Keys;
    }
    ghost var want := Wanted(ids, stored);
    forall i | 0 <= i < |ids|
      ensures HoldsOne(it.decoders, it.its[i], want[i]) && Matches(want[i], stored[ids[i]])
    {
      StoredHoldsOne(bk, stored[ids[i]], it.its[i]);
    }
    r, ok := Drain(it, want);
  }
}

/** Wire encodings of allocations, states, transactions and parameters (channel/allocation.go,
    channel/state.go, channel/transaction.go, channel/params.go, wallet/address.go). Addresses, assets and
    signatures have the fixed lengths of the Ethereum backend. */
module Wire {
  import opened Base
  import opened Allocations
  import opened States
  import opened Codec
  import SparseSigs

  const ID_LEN: nat := 32
  const ADDRESS_LEN: nat := 20
  const MAX_NONCE_LEN := 32

  // ----- fixed-length fields

  function EncID(id: ID): Option<bytes> {
    EncFixed(ID_LEN, id)
  }

  function DecID(s: bytes): Decoded<bytes> {
    Take(ID_LEN, s)
  }

  /** Addresses; assets are encoded the same way. */
  function EncAddress(a: Address): Option<bytes> {
    EncFixed(ADDRESS_LEN, a)
  }

  function DecAddress(s: bytes): Decoded<bytes> {
    Take(ADDRESS_LEN, s)
  }

  lemma AddressRoundTrip(a: Address)
    requires |a| == ADDRESS_LEN
    ensures RoundTrips(EncAddress(a), DecAddress, a)
  {
    forall rest: bytes
      ensures DecAddress(EncAddress(a).value + rest) == Got(a, rest)
    {
      TakeRoundTrip(a, rest);
    }
  }

  lemma IndexCodec(n: nat)
    requires n < INDEX_SIZE
    ensures RoundTrips(EncIndex(n), DecIndex, n)
  {
    forall rest: bytes
      ensures DecIndex(EncIndex(n).value + rest) == Got(n, rest)
    {
      IndexRoundTrip(n, rest);
    }
  }

  function EncAddresses(addrs: seq<Address>): Option<bytes> {
    Join(EncIndex(|addrs|), EncMany(EncAddress, addrs))
  }

  function DecAddresses(s: bytes): Decoded<seq<Address>> {
    var (n, s1) :- DecIndex(s);
    DecMany(DecAddress, n, s1)
  }

  predicate WireAddresses(addrs: seq<Address>) {
    |addrs| < INDEX_SIZE && forall i :: 0 <= i < |addrs| ==> |addrs[i]| == ADDRESS_LEN
  }

  lemma AddressesRoundTrip(addrs: seq<Address>)
    requires WireAddresses(addrs)
    ensures RoundTrips(EncAddresses(addrs), DecAddresses, addrs)
  {
    forall i | 0 <= i < |addrs|
      ensures RoundTrips(EncAddress(addrs[i]), DecAddress, addrs[i])
    {
      AddressRoundTrip(addrs[i]);
    }
    ManyRoundTrip(EncAddress, DecAddress, addrs);
    forall rest: bytes
      ensures DecAddresses(EncAddresses(addrs).value + rest) == Got(addrs, rest)
    {
      var b := EncMany(EncAddress, addrs).value;
      Regroup3(EncIndex(|addrs|).value, b, rest);
      IndexRoundTrip(|addrs|, b + rest);
    }
  }

  // ----- sub-allocations

  predicate WireSubAlloc(s: SubAlloc) {
    && ValidSubAlloc(s) && |s.id| == ID_LEN
    && (forall i :: 0 <= i < |s.bals| ==> FitsBigInt(s.bals[i]))
    && |s.indexMap| < INDEX_SIZE
    && (forall i :: 0 <= i < |s.indexMap| ==> s.indexMap[i] < INDEX_SIZE)
  }

  /** What follows the ID. */
  function EncSubAllocBody(s: SubAlloc): Option<bytes> {
    Join(Join(EncIndex(|s.bals|), EncMany(EncBigInt, s.bals)), Join(EncIndex(|s.indexMap|), EncMany(EncIndex, s.indexMap)))
  }

  function EncSubAlloc(s: SubAlloc): Option<bytes> {
    if ValidSubAlloc(s) then Join(EncID(s.id), EncSubAllocBody(s)) else None
  }

  function DecSubAllocBody(id: ID, s: bytes): Decoded<SubAlloc> {
    var (numAssets, s1) :- DecIndex(s);
    if numAssets > MAX_NUM_ASSETS then Failed
    else
      var (bals, s2) :- DecMany(DecBigInt, numAssets, s1);
      var (l, s3) :- DecIndex(s2);
      var (indexMap, s4) :- DecMany(DecIndex, l, s3);
      if ValidSubAlloc(SubAlloc(id, bals, indexMap)) then Got(SubAlloc(id, bals, indexMap), s4) else Failed
  }

  function DecSubAlloc(s: bytes): Decoded<SubAlloc> {
    var (id, s1) :- DecID(s);
    DecSubAllocBody(id, s1)
  }

  lemma BigIntsRoundTrip(xs: seq<int>, rest: bytes)
    requires forall i :: 0 <= i < |xs| ==> FitsBigInt(xs[i])
    ensures EncMany(EncBigInt, xs).Some?
    ensures DecMany(DecBigInt, |xs|, EncMany(EncBigInt, xs).value + rest) == Got(xs, rest)
  {
    forall i | 0 <= i < |xs|
      ensures RoundTrips(EncBigInt(xs[i]), DecBigInt, xs[i])
    {
      BigIntRoundTrip(xs[i]);
    }
    ManyRoundTrip(EncBigInt, DecBigInt, xs);
  }

  lemma IndicesRoundTrip(xs: seq<nat>, rest: bytes)
    requires forall i :: 0 <= i < |xs| ==> xs[i] < INDEX_SIZE
    ensures EncMany(EncIndex, xs).Some?
    ensures DecMany(DecIndex, |xs|, EncMany(EncIndex, xs).value + rest) == Got(xs, rest)
  {
    forall i | 0 <= i < |xs|
      ensures RoundTrips(EncIndex(xs[i]), DecIndex, xs[i])
    {
      IndexCodec(xs[i]);
    }
    ManyRoundTrip(EncIndex, DecIndex, xs);
  }

  lemma SubAllocBodyAt(s: SubAlloc, rest: bytes)
    requires WireSubAlloc(s)
    ensures EncSubAllocBody(s).Some?
    ensures DecSubAllocBody(s.id, EncSubAllocBody(s).value + rest) == Got(s, rest)
  {
    BigIntsRoundTrip(s.bals, []);
    IndicesRoundTrip(s.indexMap, rest);
    var nb, b := EncIndex(|s.bals|).value, EncMany(EncBigInt, s.bals).value;
    var nm, m := EncIndex(|s.indexMap|).value, EncMany(EncIndex, s.indexMap).value;
    Regroup3(nb + b, nm + m, rest);
    Regroup3(nb, b, nm + m + rest);
    Regroup3(nm, m, rest);
    IndexRoundTrip(|s.bals|, b + (nm + (m + rest)));
    BigIntsRoundTrip(s.bals, nm + (m + rest));
    IndexRoundTrip(|s.indexMap|, m + rest);
  }

  lemma SubAllocRoundTrip(s: SubAlloc)
    requires WireSubAlloc(s)
    ensures RoundTrips(EncSubAlloc(s), DecSubAlloc, s)
  {
    SubAllocBodyAt(s, []);
    forall rest: bytes
      ensures DecSubAlloc(EncSubAlloc(s).value + rest) == Got(s, rest)
    {
      var body := EncSubAllocBody(s).value;
      SubAllocBodyAt(s, rest);
      Regroup3(s.id, body, rest);
      TakeRoundTrip(s.id, body + rest);
    }
  }

  // ----- balances

  function EncRow(row: seq<Bal>): Option<bytes> {
    EncMany(EncBigInt, row)
  }

  function DecRow(numParts: nat): bytes -> Decoded<seq<Bal>> {
    (r: bytes) => DecMany(DecBigInt, numParts, r)
  }

  function EncBalances(b: Balances): Option<bytes> {
    var numParts := if b == [] then 0 else |b[0]|;
    if |b| > MAX_NUM_ASSETS || numParts > MAX_NUM_PARTS then None
    else Join(Join(EncIndex(|b|), EncIndex(numParts)), EncMany(EncRow, b))
  }

  function DecBalances(s: bytes): Decoded<Balances> {
    var (numAssets, s1) :- DecIndex(s);
    var (numParts, s2) :- DecIndex(s1);
    if numAssets > MAX_NUM_ASSETS || numParts > MAX_NUM_PARTS then Failed
    else DecMany(DecRow(numParts), numAssets, s2)
  }

  predicate WireBalances(b: Balances) {
    && 0 < |b| <= MAX_NUM_ASSETS && |b[0]| <= MAX_NUM_PARTS
    && (forall i :: 0 <= i < |b| ==> |b[i]| == |b[0]|)
    && (forall i, j :: 0 <= i < |b| && 0 <= j < |b[i]| ==> FitsBigInt(b[i][j]))
  }

  lemma RowsRoundTrip(b: Balances, numParts: nat, rest: bytes)
    requires forall i :: 0 <= i < |b| ==> |b[i]| == numParts
    requires forall i, j :: 0 <= i < |b| && 0 <= j < |b[i]| ==> FitsBigInt(b[i][j])
    ensures EncMany(EncRow, b).Some?
    ensures DecMany(DecRow(numParts), |b|, EncMany(EncRow, b).value + rest) == Got(b, rest)
  {
    forall i | 0 <= i < |b|
      ensures RoundTrips(EncRow(b[i]), DecRow(numParts), b[i])
    {
      BigIntsRoundTrip(b[i], []);
      forall r: bytes
        ensures DecRow(numParts)(EncRow(b[i]).value + r) == Got(b[i], r)
      {
        BigIntsRoundTrip(b[i], r);
      }
    }
    ManyRoundTrip(EncRow, DecRow(numParts), b);
  }

  lemma BalancesRoundTrip(b: Balances)
    requires WireBalances(b)
    ensures RoundTrips(EncBalances(b), DecBalances, b)
  {
    var numParts := |b[0]|;
    RowsRoundTrip(b, numParts, []);
    forall rest: bytes
      ensures DecBalances(EncBalances(b).value + rest) == Got(b, rest)
    {
      var na, np, rows := EncIndex(|b|).value, EncIndex(numParts).value, EncMany(EncRow, b).value;
      RowsRoundTrip(b, numParts, rest);
      Regroup4(na, np, rows, rest);
      IndexRoundTrip(|b|, np + (rows + rest));
      IndexRoundTrip(numParts, rows + rest);
    }
  }

  // ----- allocations

  function EncAllocationBody(a: Allocation): Option<bytes> {
    Join(EncMany(EncAddress, a.assets), Join(EncBalances(a.balances), EncMany(EncSubAlloc, a.locked)))
  }

  function EncAllocation(a: Allocation): Option<bytes> {
    if !ValidAlloc(a) then None else Join(EncDimensions(a), EncAllocationBody(a))
  }

  function DecAllocationBody(numAssets: nat, numLocked: nat, s: bytes): Decoded<Allocation> {
    var (assets, s1) :- DecMany(DecAddress, numAssets, s);
    var (balances, s2) :- DecBalances(s1);
    var (locked, s3) :- DecMany(DecSubAlloc, numLocked, s2);
    if ValidAlloc(Allocation(assets, balances, locked)) then Got(Allocation(assets, balances, locked), s3) else Failed
  }

  function EncDimensions(a: Allocation): Option<bytes> {
    Join(EncIndex(|a.assets|), Join(EncIndex(NumParts(a) % INDEX_SIZE), EncIndex(|a.locked|)))
  }

  function DecThree(s: bytes): Decoded<(nat, nat, nat)> {
    var (x, s1) :- DecIndex(s);
    var (y, s2) :- DecIndex(s1);
    var (z, s3) :- DecIndex(s2);
    Got((x, y, z), s3)
  }

  function DecDimensions(s: bytes): Decoded<(nat, nat, nat)> {
    var (dims, rest) :- DecThree(s);
    if dims.0 > MAX_NUM_ASSETS || dims.1 > MAX_NUM_PARTS || dims.2 > MAX_NUM_SUB_ALLOCATIONS then Failed
    else Got(dims, rest)
  }

  function DecAllocation(s: bytes): Decoded<Allocation> {
    var (dims, s1) :- DecDimensions(s);
    DecAllocationBody(dims.0, dims.2, s1)
  }

  /** Valid, of fixed-length assets and IDs, balances of at most 128 bytes and index maps below 65536. */
  predicate WireAllocation(a: Allocation) {
    && ValidAlloc(a)
    && (forall i :: 0 <= i < |a.assets| ==> |a.assets[i]| == ADDRESS_LEN)
    && WireBalances(a.balances)
    && (forall k :: 0 <= k < |a.locked| ==> WireSubAlloc(a.locked[k]))
  }

  lemma AssetsRoundTrip(assets: seq<Asset>, rest: bytes)
    requires forall i :: 0 <= i < |assets| ==> |assets[i]| == ADDRESS_LEN
    ensures EncMany(EncAddress, assets).Some?
    ensures DecMany(DecAddress, |assets|, EncMany(EncAddress, assets).value + rest) == Got(assets, rest)
  {
    forall i | 0 <= i < |assets|
      ensures RoundTrips(EncAddress(assets[i]), DecAddress, assets[i])
    {
      AddressRoundTrip(assets[i]);
    }
    ManyRoundTrip(EncAddress, DecAddress, assets);
  }

  lemma SubAllocsRoundTrip(locked: seq<SubAlloc>, rest: bytes)
    requires forall k :: 0 <= k < |locked| ==> WireSubAlloc(locked[k])
    ensures EncMany(EncSubAlloc, locked).Some?
    ensures DecMany(DecSubAlloc, |locked|, EncMany(EncSubAlloc, locked).value + rest) == Got(locked, rest)
  {
    forall k | 0 <= k < |locked|
      ensures RoundTrips(EncSubAlloc(locked[k]), DecSubAlloc, locked[k])
    {
      SubAllocRoundTrip(locked[k]);
    }
    ManyRoundTrip(EncSubAlloc, DecSubAlloc, locked);
  }

  lemma AllocationBodyAt(a: Allocation, rest: bytes)
    requires WireAllocation(a)
    ensures EncAllocationBody(a).Some?
    ensures DecAllocationBody(|a.assets|, |a.locked|, EncAllocationBody(a).value + rest) == Got(a, rest)
  {
    AssetsRoundTrip(a.assets, []);
    BalancesRoundTrip(a.balances);
    SubAllocsRoundTrip(a.locked, rest);
    var assets, bals, locked := EncMany(EncAddress, a.assets).value, EncBalances(a.balances).value, EncMany(EncSubAlloc, a.locked).value;
    Regroup4(assets, bals, locked, rest);
    AssetsRoundTrip(a.assets, bals + (locked + rest));
    assert DecBalances(bals + (locked + rest)) == Got(a.balances, locked + rest);
  }

  lemma DimensionsAt(a: Allocation, rest: bytes)
    requires ValidAlloc(a)
    ensures DecDimensions(EncDimensions(a).value + rest) == Got((|a.assets|, NumParts(a), |a.locked|), rest)
  {
    ThreeAt(|a.assets|, NumParts(a), |a.locked|, rest);
  }

  lemma ThreeAt(x: nat, y: nat, z: nat, rest: bytes)
    requires x < INDEX_SIZE && y < INDEX_SIZE && z < INDEX_SIZE
    ensures Join(EncIndex(x), Join(EncIndex(y), EncIndex(z))).Some?
    ensures DecThree(Join(EncIndex(x), Join(EncIndex(y), EncIndex(z))).value + rest) == Got((x, y, z), rest)
  {
    var ex, ey, ez := EncIndex(x).value, EncIndex(y).value, EncIndex(z).value;
    Regroup4(ex, ey, ez, rest);
    IndexRoundTrip(x, ey + (ez + rest));
    IndexRoundTrip(y, ez + rest);
    IndexRoundTrip(z, rest);
  }

  lemma AllocationRoundTrip(a: Allocation)
    requires WireAllocation(a)
    ensures RoundTrips(EncAllocation(a), DecAllocation, a)
  {
    AllocationBodyAt(a, []);
    forall rest: bytes
      ensures DecAllocation(EncAllocation(a).value + rest) == Got(a, rest)
    {
      var dims, body := EncDimensions(a).value, EncAllocationBody(a).value;
      AllocationBodyAt(a, rest);
      Regroup3(dims, body, rest);
      DimensionsAt(a, body + rest);
    }
  }

  // ----- states

  /** OptAppEnc. */
  function EncApp(app: App): Option<bytes> {
    match app
    case NoApp => EncBool(false)
    case AppDef(def) => Join(EncBool(true), EncAddress(def))
  }

  /** OptAppDec; every definition resolves to its app. */
  function DecApp(s: bytes): Decoded<App> {
    var (hasApp, s1) :- DecBool(s);
    if !hasApp then Got(NoApp, s1)
    else
      var (def, s2) :- DecAddress(s1);
      Got(AppDef(def), s2)
  }

  predicate WireApp(app: App) {
    app.AppDef? ==> |app.def| == ADDRESS_LEN
  }

  lemma AppRoundTrip(app: App)
    requires WireApp(app)
    ensures RoundTrips(EncApp(app), DecApp, app)
  {
    forall rest: bytes
      ensures DecApp(EncApp(app).value + rest) == Got(app, rest)
    {
      match app
      case NoApp => BoolRoundTrip(false, rest);
      case AppDef(def) =>
        BoolRoundTrip(true, def + rest);
        assert EncApp(app).value + rest == EncBool(true).value + (def + rest);
        TakeRoundTrip(def, rest);
    }
  }

  /** What follows the allocation. */
  function EncStateTail(s: State): Option<bytes> {
    Join(EncBool(s.isFinal), Join(EncApp(s.app), Some(s.data)))
  }

  function EncState(s: State): Option<bytes> {
    Join(Join(EncID(s.id), Join(EncUint(s.version, 8), EncAllocation(s.alloc))), EncStateTail(s))
  }

  /** App.DecodeData: each app reads its own data from the stream. */
  type DecodeData = (App, bytes) -> Decoded<bytes>

  /** The app reads back exactly this data and no more. */
  ghost predicate WireData(decData: DecodeData, app: App, data: bytes) {
    forall rest: bytes :: decData(app, data + rest) == Got(data, rest)
  }

  function DecStateTail(s: bytes): Decoded<(bool, App)> {
    var (isFinal, s1) :- DecBool(s);
    var (app, s2) :- DecApp(s1);
    Got((isFinal, app), s2)
  }

  function DecState(decData: DecodeData, s: bytes): Decoded<State> {
    var (id, s1) :- DecID(s);
    var (version, s2) :- DecUint(8, s1);
    var (alloc, s3) :- DecAllocation(s2);
    var (tail, s4) :- DecStateTail(s3);
    var (data, s5) :- decData(tail.1, s4);
    Got(State(id, version, tail.1, alloc, data, tail.0), s5)
  }

  function StateDecoder(decData: DecodeData): bytes -> Decoded<State> {
    (s: bytes) => DecState(decData, s)
  }

  ghost predicate WireState(decData: DecodeData, s: State) {
    && |s.id| == ID_LEN && s.version < UINT64_SIZE && WireAllocation(s.alloc) && WireApp(s.app)
    && WireData(decData, s.app, s.data)
  }

  lemma Power256Of8()
    ensures Power256(8) == UINT64_SIZE
  {
    assert Power256(4) == 0x1_0000_0000;
    assert Power256(6) == 0x1_0000_0000_0000;
  }

  lemma StateTailAt(s: State, rest: bytes)
    requires WireApp(s.app)
    ensures EncStateTail(s).Some?
    ensures DecStateTail(EncStateTail(s).value + rest) == Got((s.isFinal, s.app), s.data + rest)
  {
    AppRoundTrip(s.app);
    var fin, app := EncBool(s.isFinal).value, EncApp(s.app).value;
    Regroup4(fin, app, s.data, rest);
    BoolRoundTrip(s.isFinal, app + (s.data + rest));
    assert DecApp(app + (s.data + rest)) == Got(s.app, s.data + rest);
  }

  lemma StateRoundTrip(decData: DecodeData, s: State)
    requires WireState(decData, s)
    ensures RoundTrips(EncState(s), StateDecoder(decData), s)
  {
    AllocationRoundTrip(s.alloc);
    StateTailAt(s, []);
    Power256Of8();
    forall rest: bytes
      ensures DecState(decData, EncState(s).value + rest) == Got(s, rest)
    {
      var version, alloc, tail := EncUint(s.version, 8).value, EncAllocation(s.alloc).value, EncStateTail(s).value;
      StateTailAt(s, rest);
      Regroup3(s.id + (version + alloc), tail, rest);
      Regroup4(s.id, version, alloc, tail + rest);
      TakeRoundTrip(s.id, version + (alloc + (tail + rest)));
      UintRoundTrip(s.version, 8, alloc + (tail + rest));
      assert DecAllocation(alloc + (tail + rest)) == Got(s.alloc, tail + rest);
      assert decData(s.app, s.data + rest) == Got(s.data, rest);
    }
  }

  // ----- transactions

  function EncSignedState(enc: Option<bytes>, sigs: seq<Option<Sig>>): Option<bytes> {
    Join(Join(Some([1]), enc), Some(SparseSigs.EncSparseSigs(sigs)))
  }

  function EncTransaction(tx: Transaction): Option<bytes> {
    match tx.state
    case None => Some([0])
    case Some(s) => EncSignedState(EncState(s), tx.sigs)
  }

  /** The state and then one slot per participant of that state. */
  function DecSignedState(decState: bytes -> Decoded<State>, s: bytes): Decoded<Transaction> {
    if s == [] then Failed
    else if s[0] % 2 == 0 then Got(EMPTY_TX, s[1..])
    else
      var (state, s1) :- decState(s[1..]);
      if state.alloc.balances == [] then Failed
      else
        var (sigs, s2) :- SparseSigs.DecSparseSigs(|state.alloc.balances[0]|, s1);
        Got(Transaction(Some(state), sigs), s2)
  }

  function DecTransaction(decData: DecodeData, s: bytes): Decoded<Transaction> {
    DecSignedState(StateDecoder(decData), s)
  }

  function TransactionDecoder(decData: DecodeData): bytes -> Decoded<Transaction> {
    (s: bytes) => DecTransaction(decData, s)
  }

  lemma SignedStateRoundTrip(enc: Option<bytes>, decState: bytes -> Decoded<State>, tx: Transaction, rest: bytes)
    requires tx.state.Some? && RoundTrips(enc, decState, tx.state.value) && SparseSigs.FixedLength(tx.sigs)
    requires tx.state.value.alloc.balances != [] && |tx.sigs| == |tx.state.value.alloc.balances[0]|
    ensures DecSignedState(decState, EncSignedState(enc, tx.sigs).value + rest) == Got(tx, rest)
  {
    var sigs := SparseSigs.EncSparseSigs(tx.sigs);
    var body := enc.value + (sigs + rest);
    Regroup4([1], enc.value, sigs, rest);
    assert ([1] + body)[1..] == body;
    assert decState(body) == Got(tx.state.value, sigs + rest);
    SparseSigs.SparseSigsRoundTrip(tx.sigs, rest);
  }

  /** Empty, or an encodable state with one fixed-length or missing signature per participant. */
  ghost predicate WireTransaction(decData: DecodeData, tx: Transaction) {
    tx == EMPTY_TX ||
    (tx.state.Some? && WireState(decData, tx.state.value) && SparseSigs.FixedLength(tx.sigs) &&
     |tx.sigs| == NumParts(tx.state.value.alloc))
  }

  /** Decoding an encoded transaction followed by any bytes returns the transaction and exactly those bytes. */
  lemma TransactionRoundTrip(decData: DecodeData, tx: Transaction)
    requires WireTransaction(decData, tx)
    ensures RoundTrips(EncTransaction(tx), TransactionDecoder(decData), tx)
  {
    if tx != EMPTY_TX {
      StateRoundTrip(decData, tx.state.value);
    }
    forall rest: bytes
      ensures DecTransaction(decData, EncTransaction(tx).value + rest) == Got(tx, rest)
    {
      if tx == EMPTY_TX {
        assert ([0] + rest)[1..] == rest;
      } else {
        SignedStateRoundTrip(EncState(tx.state.value), StateDecoder(decData), tx, rest);
      }
    }
  }

  // ----- parameters

  /** The channel ID as the backend calculates it from the other parameters. */
  type CalcID = (nat, seq<Address>, App, nat, bool, bool) -> ID

  /** The foreign code that decoding calls. */
  datatype Backend = Backend(calcID: CalcID, decData: DecodeData)

  function EncParamsHead(p: Params): Option<bytes> {
    Join(EncUint(p.challengeDuration, 8), Join(EncAddresses(p.parts), EncApp(p.app)))
  }

  function EncParamsTail(p: Params): Option<bytes> {
    Join(EncBigInt(p.nonce), Join(EncBool(p.ledger), EncBool(p.virtual)))
  }

  function EncParams(p: Params): Option<bytes> {
    Join(EncParamsHead(p), EncParamsTail(p))
  }

  function DecParamsHead(s: bytes): Decoded<(nat, seq<Address>, App)> {
    var (duration, s1) :- DecUint(8, s);
    var (parts, s2) :- DecAddresses(s1);
    var (app, s3) :- DecApp(s2);
    Got((duration, parts, app), s3)
  }

  function DecParamsTail(s: bytes): Decoded<(int, bool, bool)> {
    var (nonce, s1) :- DecBigInt(s);
    var (ledger, s2) :- DecBool(s1);
    var (virtual, s3) :- DecBool(s2);
    Got((nonce, ledger, virtual), s3)
  }

  /** Params.Decode: NewParams validates the decoded values and calculates the ID anew. */
  function DecParams(calcID: CalcID, s: bytes): Decoded<Params> {
    var (head, s1) :- DecParamsHead(s);
    var (tail, s2) :- DecParamsTail(s1);
    var (duration, parts, app) := head;
    var (nonce, ledger, virtual) := tail;
    if duration == 0 || |parts| < 2 || |parts| > MAX_NUM_PARTS || nonce < 0 || |BigBytes(nonce)| > MAX_NONCE_LEN then Failed
    else Got(Params(calcID(duration, parts, app, nonce, ledger, virtual), duration, parts, app, nonce, ledger, virtual), s2)
  }

  /** Parameters that NewParams accepts. */
  predicate WireParams(calcID: CalcID, p: Params) {
    && 0 < p.challengeDuration < UINT64_SIZE
    && 2 <= |p.parts| <= MAX_NUM_PARTS && WireAddresses(p.parts)
    && WireApp(p.app)
    && |BigBytes(p.nonce)| <= MAX_NONCE_LEN
    && p.id == calcID(p.challengeDuration, p.parts, p.app, p.nonce, p.ledger, p.virtual)
  }

  lemma ParamsTailAt(p: Params, rest: bytes)
    requires FitsBigInt(p.nonce)
    ensures EncParamsTail(p).Some?
    ensures DecParamsTail(EncParamsTail(p).value + rest) == Got((p.nonce, p.ledger, p.virtual), rest)
  {
    BigIntRoundTrip(p.nonce);
    var nonce, ledger, virtual := EncBigInt(p.nonce).value, EncBool(p.ledger).value, EncBool(p.virtual).value;
    Regroup4(nonce, ledger, virtual, rest);
    assert DecBigInt(nonce + (ledger + (virtual + rest))) == Got(p.nonce, ledger + (virtual + rest));
    BoolRoundTrip(p.ledger, virtual + rest);
    BoolRoundTrip(p.virtual, rest);
  }

  lemma ParamsHeadAt(p: Params, rest: bytes)
    requires p.challengeDuration < UINT64_SIZE && WireAddresses(p.parts) && WireApp(p.app)
    ensures EncParamsHead(p).Some?
    ensures DecParamsHead(EncParamsHead(p).value + rest) == Got((p.challengeDuration, p.parts, p.app), rest)
  {
    AddressesRoundTrip(p.parts);
    AppRoundTrip(p.app);
    Power256Of8();
    var duration, parts, app := EncUint(p.challengeDuration, 8).value, EncAddresses(p.parts).value, EncApp(p.app).value;
    Regroup4(duration, parts, app, rest);
    UintRoundTrip(p.challengeDuration, 8, parts + (app + rest));
    assert DecAddresses(parts + (app + rest)) == Got(p.parts, app + rest);
    assert DecApp(app + rest) == Got(p.app, rest);
  }

  lemma ParamsRoundTrip(calcID: CalcID, p: Params, rest: bytes)
    requires WireParams(calcID, p)
    ensures EncParams(p).Some?
    ensures DecParams(calcID, EncParams(p).value + rest) == Got(p, rest)
  {
    ParamsTailAt(p, rest);
    ParamsHeadAt(p, EncParamsTail(p).value + rest);
    Regroup3(EncParamsHead(p).value, EncParamsTail(p).value, rest);
  }
}

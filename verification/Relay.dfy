/** The relay and its message cache (wire/relay.go, wire/cache.go), used sequentially and before Close. */
module Relays {
  import opened Base

  /** An envelope; no tells the envelopes apart and counts them in order of arrival. */
  datatype Envelope = Envelope(no: nat, content: bytes)

  type Predicate = Envelope -> bool

  type Consumer = nat

  /** A predicate with the context that ends it. */
  datatype CtxPredicate = CtxPredicate(ctx: nat, p: Predicate)

  datatype Subscription = Subscription(consumer: Consumer, predicate_: Predicate)

  function Filter<T>(s: seq<T>, p: T -> bool): seq<T> {
    if s == [] then []
    else Filter(s[..|s| - 1], p) + if p(s[|s| - 1]) then [s[|s| - 1]] else []
  }

  function Not<T>(p: T -> bool): T -> bool {
    x => !p(x)
  }

  lemma FilterSnoc<T>(s: seq<T>, p: T -> bool, i: nat)
    requires i < |s|
    ensures Filter(s[..i + 1], p) == Filter(s[..i], p) + if p(s[i]) then [s[i]] else []
  {
    assert s[..i + 1][..i] == s[..i];
  }

  lemma {:induction false} FilterMember<T>(s: seq<T>, p: T -> bool, x: T)
    ensures x in Filter(s, p) <==> x in s && p(x)
  {
    if s != [] {
      FilterMember(s[..|s| - 1], p, x);
      assert s == s[..|s| - 1] + [s[|s| - 1]];
    }
  }

  // ----- the cache as a value

  datatype CacheState = CacheState(msgs: seq<Envelope>, preds: seq<CtxPredicate>)

  function Active(done: set<nat>): CtxPredicate -> bool {
    (p: CtxPredicate) => p.ctx !in done
  }

  /** Some predicate whose context is not done accepts the envelope. */
  predicate Wanted(preds: seq<CtxPredicate>, done: set<nat>, e: Envelope) {
    exists i :: 0 <= i < |preds| && preds[i].ctx !in done && preds[i].p(e)
  }

  lemma WantedSnoc(preds: seq<CtxPredicate>, done: set<nat>, e: Envelope, i: nat)
    requires i < |preds|
    ensures Wanted(preds[..i + 1], done, e) == (Wanted(preds[..i], done, e) || (preds[i].ctx !in done && preds[i].p(e)))
  {
    if Wanted(preds[..i], done, e) {
      var j :| 0 <= j < i && preds[..i][j].ctx !in done && preds[..i][j].p(e);
      assert preds[..i + 1][j] == preds[..i][j];
    }
    if preds[i].ctx !in done && preds[i].p(e) {
      assert preds[..i + 1][i] == preds[i];
    }
    if Wanted(preds[..i + 1], done, e) {
      var j :| 0 <= j < i + 1 && preds[..i + 1][j].ctx !in done && preds[..i + 1][j].p(e);
      assert j < i ==> preds[..i][j] == preds[..i + 1][j];
    }
  }

  function CachePut(c: CacheState, e: Envelope, done: set<nat>): CacheState {
    CacheState(if Wanted(c.preds, done, e) then c.msgs + [e] else c.msgs, Filter(c.preds, Active(done)))
  }

  // ----- the cache as the object the source updates

  class Cache {
    var msgs: array<Envelope>
    var numMsgs: nat
    var preds: array<CtxPredicate>
    var numPreds: nat

    ghost predicate Valid()
      reads this
    {
      numMsgs <= msgs.Length && numPreds <= preds.Length
    }

    ghost function State(): CacheState
      requires Valid()
      reads this, msgs, preds
    {
      CacheState(msgs[..numMsgs], preds[..numPreds])
    }

    constructor ()
      ensures Valid() && fresh(msgs) && fresh(preds) && State() == CacheState([], [])
    {
      msgs, numMsgs := new Envelope[0], 0;
      preds, numPreds := new CtxPredicate[0], 0;
    }

    method Cache(ctx: nat, p: Predicate)
      requires Valid()
      modifies this, preds
      ensures Valid() && msgs == old(msgs) && (preds == old(preds) || fresh(preds))
      ensures State() == CacheState(old(State()).msgs, old(State()).preds + [CtxPredicate(ctx, p)])
    {
      preds := Append(preds, numPreds, CtxPredicate(ctx, p));
      numPreds := numPreds + 1;
    }

    /** Drops the predicates that are done, in place, and asks the others. */
    method FilterPreds(e: Envelope, done: set<nat>) returns (any: bool, k: nat)
      requires Valid()
      modifies preds
      ensures k <= numPreds && preds[..k] == Filter(old(preds[..numPreds]), Active(done))
      ensures any == Wanted(old(preds[..numPreds]), done, e)
    {
      any, k := false, 0;
      ghost var before := preds[..numPreds];
      for i := 0 to numPreds
        invariant k <= i && preds[..k] == Filter(before[..i], Active(done))
        invariant forall x :: i <= x < numPreds ==> preds[x] == before[x]
        invariant any == Wanted(before[..i], done, e)
      {
        var p := preds[i];
        FilterSnoc(before, Active(done), i);
        WantedSnoc(before, done, e, i);
        if p.ctx !in done {
          preds[k] := p;
          k := k + 1;
          any := any || p.p(e);
        }
      }
      assert before[..numPreds] == before;
    }

    /** Keeps the envelope if a predicate that is not done accepts it. */
    method Put(e: Envelope, done: set<nat>) returns (any: bool)
      requires Valid()
      modifies this, msgs, preds
      ensures Valid() && (msgs == old(msgs) || fresh(msgs)) && preds == old(preds)
      ensures any == Wanted(old(State()).preds, done, e)
      ensures State() == CachePut(old(State()), e, done)
    {
      var k;
      any, k := FilterPreds(e, done);
      if any {
        msgs := Append(msgs, numMsgs, e);
        numMsgs := numMsgs + 1;
      }
      numPreds := k;
    }

    /** Takes out the envelopes that the predicate accepts; the others move together in place. */
    method Get(p: Predicate) returns (matches: seq<Envelope>)
      requires Valid()
      modifies this, msgs
      ensures Valid() && msgs == old(msgs) && preds == old(preds)
      ensures matches == Filter(old(State()).msgs, p)
      ensures State() == CacheState(Filter(old(State()).msgs, Not(p)), old(State()).preds)
    {
      matches := [];
      ghost var before := msgs[..numMsgs];
      var k := 0;
      for i := 0 to numMsgs
        invariant k <= i
        invariant matches == Filter(before[..i], p)
        invariant msgs[..k] == Filter(before[..i], Not(p))
        invariant forall x :: i <= x < numMsgs ==> msgs[x] == before[x]
        modifies msgs
      {
        var m := msgs[i];
        FilterSnoc(before, p, i);
        FilterSnoc(before, Not(p), i);
        if p(m) {
          matches := matches + [m];
        } else {
          msgs[k] := m;
          k := k + 1;
        }
      }
      assert before[..numMsgs] == before;
      numMsgs := k;
    }
  }

  /** append: in place while there is room, otherwise into a larger array. */
  method Append<T>(a: array<T>, n: nat, x: T) returns (r: array<T>)
    requires n <= a.Length
    modifies a
    ensures r == a || fresh(r)
    ensures n < r.Length && r[..n + 1] == old(a[..n]) + [x]
  {
    r := a;
    if n == a.Length {
      r := new T[2 * n + 1](_ => x);
      for i := 0 to n
        invariant forall k :: 0 <= k < i ==> r[k] == a[k]
        invariant a[..] == old(a[..])
      {
        r[i] := a[i];
      }
    }
    r[n] := x;
  }

  // ----- the relay as a value

  datatype Delivery = Delivery(consumer: Consumer, e: Envelope)

  /** The relay with a record of what became of the envelopes: handed to subscribers on arrival, handed to a
      later subscriber out of the cache, or left to the default handler. */
  datatype RelayState = RelayState(
    subs: seq<Subscription>, cache: CacheState, arrived: nat, received: seq<Delivery>,
    direct: seq<Envelope>, later: seq<Envelope>, unhandled: seq<Envelope>)

  const EMPTY_RELAY := RelayState([], CacheState([], []), 0, [], [], [], [])

  /** The contexts that are done are known at the time of a put. open is false for a consumer that is closed
      when it subscribes. */
  datatype Event =
    | Put(content: bytes, done: set<nat>)
    | Subscribe(consumer: Consumer, p: Predicate, open: bool)
    | EnableCache(ctx: nat, p: Predicate)
    | Delete(consumer: Consumer)

  /** The deliveries of an envelope to all subscribers that want it. */
  function Deliveries(subs: seq<Subscription>, e: Envelope): seq<Delivery> {
    if subs == [] then []
    else
      var last := subs[|subs| - 1];
      Deliveries(subs[..|subs| - 1], e) + if last.predicate_(e) then [Delivery(last.consumer, e)] else []
  }

  function HandOver(c: Consumer, es: seq<Envelope>): seq<Delivery> {
    seq(|es|, i requires 0 <= i < |es| => Delivery(c, es[i]))
  }

  /** The position of a consumer, or the number of subscriptions. */
  function Find(subs: seq<Subscription>, c: Consumer): (i: nat)
    ensures i <= |subs|
    ensures i < |subs| ==> subs[i].consumer == c
    ensures forall j :: 0 <= j < i ==> subs[j].consumer != c
  {
    if subs == [] || subs[0].consumer == c then 0 else 1 + Find(subs[1..], c)
  }

  /** delete: the last subscription takes the place of the deleted one. */
  function Remove(subs: seq<Subscription>, i: nat): seq<Subscription>
    requires i < |subs|
  {
    subs[i := subs[|subs| - 1]][..|subs| - 1]
  }

  function Step(r: RelayState, ev: Event): RelayState {
    match ev
    case Put(content, done) =>
      var e := Envelope(r.arrived, content);
      var to := Deliveries(r.subs, e);
      if to != [] then r.(arrived := r.arrived + 1, received := r.received + to, direct := r.direct + [e])
      else
        var kept := Wanted(r.cache.preds, done, e);
        r.(arrived := r.arrived + 1, cache := CachePut(r.cache, e, done),
           unhandled := if kept then r.unhandled else r.unhandled + [e])
    case Subscribe(c, p, open) =>
      if !open || Find(r.subs, c) < |r.subs| then r
      else
        var matches := Filter(r.cache.msgs, p);
        r.(subs := r.subs + [Subscription(c, p)], cache := r.cache.(msgs := Filter(r.cache.msgs, Not(p))),
           received := r.received + HandOver(c, matches), later := r.later + matches)
    case EnableCache(ctx, p) => r.(cache := r.cache.(preds := r.cache.preds + [CtxPredicate(ctx, p)]))
    case Delete(c) =>
      if Find(r.subs, c) == |r.subs| then r else r.(subs := Remove(r.subs, Find(r.subs, c)))
  }

  function Run(events: seq<Event>): RelayState {
    if events == [] then EMPTY_RELAY else Step(Run(events[..|events| - 1]), events[|events| - 1])
  }

  // ----- conservation

  /** How often the envelope with a number occurs. */
  function Count(es: seq<Envelope>, no: nat): nat {
    if es == [] then 0 else Count(es[..|es| - 1], no) + if es[|es| - 1].no == no then 1 else 0
  }

  lemma {:induction false} CountAppend(a: seq<Envelope>, b: seq<Envelope>, no: nat)
    ensures Count(a + b, no) == Count(a, no) + Count(b, no)
  {
    if b == [] {
      assert a + b == a;
    } else {
      CountAppend(a, b[..|b| - 1], no);
      assert (a + b)[..|a + b| - 1] == a + b[..|b| - 1];
    }
  }

  lemma CountOne(es: seq<Envelope>, e: Envelope, no: nat)
    ensures Count(es + [e], no) == Count(es, no) + if e.no == no then 1 else 0
  {
    assert (es + [e])[..|es|] == es;
  }

  /** What a predicate takes and what it leaves is all there was. */
  lemma {:induction false} FilterSplits(es: seq<Envelope>, p: Predicate, no: nat)
    ensures Count(Filter(es, p), no) + Count(Filter(es, Not(p)), no) == Count(es, no)
  {
    if es != [] {
      var init, last := es[..|es| - 1], es[|es| - 1];
      FilterSplits(init, p, no);
      CountOne(Filter(init, p), last, no);
      CountOne(Filter(init, Not(p)), last, no);
      assert Filter(init, p) + [] == Filter(init, p) && Filter(init, Not(p)) + [] == Filter(init, Not(p));
    }
  }

  /** In how many places an envelope is. */
  function Places(r: RelayState, no: nat): nat {
    Count(r.direct, no) + Count(r.cache.msgs, no) + Count(r.later, no) + Count(r.unhandled, no)
  }

  /** An envelope that arrived is in exactly one place, once; there are no others. */
  ghost predicate Conserved(r: RelayState, no: nat) {
    Places(r, no) == if no < r.arrived then 1 else 0
  }

  lemma ConservedPut(r: RelayState, content: bytes, done: set<nat>, no: nat)
    requires Conserved(r, no)
    ensures Conserved(Step(r, Put(content, done)), no)
  {
    var e := Envelope(r.arrived, content);
    if Deliveries(r.subs, e) != [] {
      CountOne(r.direct, e, no);
    } else if Wanted(r.cache.preds, done, e) {
      CountOne(r.cache.msgs, e, no);
    } else {
      CountOne(r.unhandled, e, no);
    }
  }

  lemma ConservedStep(r: RelayState, ev: Event, no: nat)
    requires Conserved(r, no)
    ensures Conserved(Step(r, ev), no)
  {
    match ev
    case Put(content, done) => ConservedPut(r, content, done, no);
    case Subscribe(c, p, open) =>
      FilterSplits(r.cache.msgs, p, no);
      CountAppend(r.later, Filter(r.cache.msgs, p), no);
    case EnableCache(_, _) =>
    case Delete(_) =>
  }

  // ----- order and addressees

  ghost predicate InOrder(es: seq<Envelope>) {
    forall i, j :: 0 <= i < j < |es| ==> es[i].no < es[j].no
  }

  lemma {:induction false} FilterInOrder(es: seq<Envelope>, p: Predicate)
    requires InOrder(es)
    ensures InOrder(Filter(es, p))
  {
    if es != [] {
      var init, last := es[..|es| - 1], es[|es| - 1];
      FilterInOrder(init, p);
      forall i | 0 <= i < |Filter(init, p)|
        ensures Filter(init, p)[i].no < last.no
      {
        FilterMember(init, p, Filter(init, p)[i]);
      }
    }
  }

  /** The cache holds envelopes in order of arrival, and none that a present subscriber wants. */
  ghost predicate CacheInv(r: RelayState) {
    && InOrder(r.cache.msgs)
    && (forall e :: e in r.cache.msgs ==> e.no < r.arrived)
    && (forall s, e :: s in r.subs && e in r.cache.msgs ==> !s.predicate_(e))
  }

  lemma {:induction false} NobodyWants(subs: seq<Subscription>, e: Envelope, s: Subscription)
    requires Deliveries(subs, e) == [] && s in subs
    ensures !s.predicate_(e)
  {
    var init, last := subs[..|subs| - 1], subs[|subs| - 1];
    assert subs == init + [last];
    if s != last {
      NobodyWants(init, e, s);
    }
  }

  lemma CacheInvPut(r: RelayState, content: bytes, done: set<nat>)
    requires CacheInv(r)
    ensures CacheInv(Step(r, Put(content, done)))
  {
    var e := Envelope(r.arrived, content);
    if Deliveries(r.subs, e) == [] {
      forall s | s in r.subs
        ensures !s.predicate_(e)
      {
        NobodyWants(r.subs, e, s);
      }
    }
  }

  lemma CacheInvSubscribe(r: RelayState, c: Consumer, p: Predicate, open: bool)
    requires CacheInv(r)
    ensures CacheInv(Step(r, Subscribe(c, p, open)))
  {
    FilterInOrder(r.cache.msgs, Not(p));
    forall e
      ensures e in Filter(r.cache.msgs, Not(p)) <==> e in r.cache.msgs && !p(e)
    {
      FilterMember(r.cache.msgs, Not(p), e);
    }
  }

  lemma RemoveMembers(subs: seq<Subscription>, i: nat, s: Subscription)
    requires i < |subs| && s in Remove(subs, i)
    ensures s in subs
  {
  }

  lemma CacheInvStep(r: RelayState, ev: Event)
    requires CacheInv(r)
    ensures CacheInv(Step(r, ev))
  {
    match ev
    case Put(content, done) => CacheInvPut(r, content, done);
    case Subscribe(c, p, open) => CacheInvSubscribe(r, c, p, open);
    case EnableCache(_, _) =>
    case Delete(c) =>
      if Find(r.subs, c) < |r.subs| {
        forall s | s in Remove(r.subs, Find(r.subs, c))
          ensures s in r.subs
        {
          RemoveMembers(r.subs, Find(r.subs, c), s);
        }
      }
  }

  /** No consumer is subscribed twice. */
  ghost predicate DistinctConsumers(subs: seq<Subscription>) {
    forall i, j :: 0 <= i < j < |subs| ==> subs[i].consumer != subs[j].consumer
  }

  /** No consumer gets an envelope twice, and nothing that was received is still cached. */
  ghost predicate ReceivedInv(r: RelayState) {
    && DistinctConsumers(r.subs)
    && (forall i, j :: 0 <= i < j < |r.received| ==> r.received[i] != r.received[j])
    && (forall d :: d in r.received ==> d.e.no < r.arrived && d.e !in r.cache.msgs)
  }

  lemma {:induction false} DeliveredOnce(subs: seq<Subscription>, e: Envelope)
    requires DistinctConsumers(subs)
    ensures forall i, j :: 0 <= i < j < |Deliveries(subs, e)| ==> Deliveries(subs, e)[i] != Deliveries(subs, e)[j]
    ensures forall c :: Delivery(c, e) in Deliveries(subs, e) <==>
                          exists i :: 0 <= i < |subs| && subs[i].consumer == c && subs[i].predicate_(e)
    ensures forall d :: d in Deliveries(subs, e) ==> d.e == e
  {
    if subs != [] {
      var init, last := subs[..|subs| - 1], subs[|subs| - 1];
      DeliveredOnce(init, e);
      forall c
        ensures Delivery(c, e) in Deliveries(subs, e) <==>
                exists i :: 0 <= i < |subs| && subs[i].consumer == c && subs[i].predicate_(e)
      {
        if Delivery(c, e) in Deliveries(init, e) {
          var i :| 0 <= i < |init| && init[i].consumer == c && init[i].predicate_(e);
          assert subs[i] == init[i];
        }
        if i :| 0 <= i < |subs| && subs[i].consumer == c && subs[i].predicate_(e) {
          if i < |init| {
            assert init[i] == subs[i];
          }
        }
      }
    }
  }

  lemma ReceivedPut(r: RelayState, content: bytes, done: set<nat>)
    requires ReceivedInv(r) && CacheInv(r)
    ensures ReceivedInv(Step(r, Put(content, done)))
  {
    var e := Envelope(r.arrived, content);
    DeliveredOnce(r.subs, e);
  }

  lemma ReceivedSubscribe(r: RelayState, c: Consumer, p: Predicate, open: bool)
    requires ReceivedInv(r) && CacheInv(r)
    ensures ReceivedInv(Step(r, Subscribe(c, p, open)))
  {
    var msgs := r.cache.msgs;
    FilterInOrder(msgs, p);
    forall e
      ensures e in Filter(msgs, p) <==> e in msgs && p(e)
      ensures e in Filter(msgs, Not(p)) <==> e in msgs && !p(e)
    {
      FilterMember(msgs, p, e);
      FilterMember(msgs, Not(p), e);
    }
  }

  lemma ReceivedStep(r: RelayState, ev: Event)
    requires ReceivedInv(r) && CacheInv(r)
    ensures ReceivedInv(Step(r, ev))
  {
    match ev
    case Put(content, done) => ReceivedPut(r, content, done);
    case Subscribe(c, p, open) => ReceivedSubscribe(r, c, p, open);
    case EnableCache(_, _) =>
    case Delete(_) =>
  }

  /** How often an envelope was delivered. */
  function Copies(ds: seq<Delivery>, no: nat): nat {
    if ds == [] then 0 else Copies(ds[..|ds| - 1], no) + if ds[|ds| - 1].e.no == no then 1 else 0
  }

  lemma {:induction false} CopiesAppend(a: seq<Delivery>, b: seq<Delivery>, no: nat)
    ensures Copies(a + b, no) == Copies(a, no) + Copies(b, no)
  {
    if b == [] {
      assert a + b == a;
    } else {
      CopiesAppend(a, b[..|b| - 1], no);
      assert (a + b)[..|a + b| - 1] == a + b[..|b| - 1];
    }
  }

  lemma {:induction false} CopiesHandedOver(c: Consumer, es: seq<Envelope>, no: nat)
    ensures Copies(HandOver(c, es), no) == Count(es, no)
  {
    if es != [] {
      CopiesHandedOver(c, es[..|es| - 1], no);
      assert HandOver(c, es)[..|es| - 1] == HandOver(c, es[..|es| - 1]);
    }
  }

  lemma {:induction false} CopiesDelivered(subs: seq<Subscription>, e: Envelope, no: nat)
    ensures Copies(Deliveries(subs, e), no) == if no == e.no then |Deliveries(subs, e)| else 0
  {
    if subs != [] {
      var init, last := subs[..|subs| - 1], subs[|subs| - 1];
      CopiesDelivered(init, e, no);
      var ds := if last.predicate_(e) then [Delivery(last.consumer, e)] else [];
      CopiesAppend(Deliveries(init, e), ds, no);
      assert ds != [] ==> ds[..0] == [];
    }
  }

  /** An envelope was delivered at all exactly if it was handed out on arrival or later, and what was handed out
      later went to one subscriber only. */
  ghost predicate Addressed(r: RelayState, no: nat) {
    if Count(r.direct, no) == 0 then Copies(r.received, no) == Count(r.later, no) else Copies(r.received, no) > 0
  }

  lemma AddressedStep(r: RelayState, ev: Event, no: nat)
    requires Addressed(r, no)
    ensures Addressed(Step(r, ev), no)
  {
    match ev
    case Put(content, _) =>
      var e := Envelope(r.arrived, content);
      CountOne(r.direct, e, no);
      CopiesDelivered(r.subs, e, no);
      CopiesAppend(r.received, Deliveries(r.subs, e), no);
    case Subscribe(c, p, _) =>
      var matches := Filter(r.cache.msgs, p);
      CountAppend(r.later, matches, no);
      CopiesHandedOver(c, matches, no);
      CopiesAppend(r.received, HandOver(c, matches), no);
    case EnableCache(_, _) =>
    case Delete(_) =>
  }

  lemma {:induction false} RunInv(events: seq<Event>, no: nat)
    ensures Conserved(Run(events), no) && Addressed(Run(events), no) && CacheInv(Run(events)) && ReceivedInv(Run(events))
  {
    if events != [] {
      var init, last := events[..|events| - 1], events[|events| - 1];
      RunInv(init, no);
      ConservedStep(Run(init), last, no);
      AddressedStep(Run(init), last, no);
      CacheInvStep(Run(init), last);
      ReceivedStep(Run(init), last);
    }
  }

  /** Every sequential run: each envelope that arrived was handed out on arrival, is cached, was handed to one
      later subscriber or went to the default handler, exactly one of these and once; the cache is in order of
      arrival and holds nothing that a present subscriber wants; nobody receives an envelope twice. */
  lemma RelayConserves(events: seq<Event>, no: nat)
    ensures var r := Run(events);
            && CacheInv(r) && ReceivedInv(r)
            && Places(r, no) == (if no < r.arrived then 1 else 0)
            && (Copies(r.received, no) == 0 <==> Count(r.direct, no) == 0 && Count(r.later, no) == 0)
            && (Count(r.later, no) > 0 ==> Copies(r.received, no) == 1)
  {
    RunInv(events, no);
  }

  /** A subscriber gets what it wants of the cache in order of arrival. */
  lemma HandedOverInOrder(events: seq<Event>, p: Predicate)
    ensures InOrder(Filter(Run(events).cache.msgs, p))
  {
    RunInv(events, 0);
    FilterInOrder(Run(events).cache.msgs, p);
  }

  // ----- the relay as the object the source updates

  class Relay {
    var consumers: seq<Subscription>
    const cache: Cache
    var arrived: nat
    var received: seq<Delivery>
    var unhandled: seq<Envelope>
    ghost var direct: seq<Envelope>
    ghost var later: seq<Envelope>

    ghost predicate Valid()
      reads this, cache
    {
      cache.Valid()
    }

    ghost function State(): RelayState
      requires Valid()
      reads this, cache, cache.msgs, cache.preds
    {
      RelayState(consumers, cache.State(), arrived, received, direct, later, unhandled)
    }

    constructor ()
      ensures Valid() && fresh(cache) && fresh(cache.msgs) && fresh(cache.preds) && State() == EMPTY_RELAY
    {
      consumers, arrived, received, unhandled := [], 0, [], [];
      direct, later := [], [];
      cache := new Cache();
    }

    /** Every subscriber that wants the envelope gets it; otherwise the cache and then the default handler. */
    method Put(content: bytes, done: set<nat>)
      requires Valid()
      modifies this, cache, cache.msgs, cache.preds
      ensures Valid() && (cache.msgs == old(cache.msgs) || fresh(cache.msgs)) && cache.preds == old(cache.preds)
      ensures State() == Step(old(State()), Event.Put(content, done))
    {
      var e := Envelope(arrived, content);
      arrived := arrived + 1;
      var any := Deliver(e);
      if any {
        direct := direct + [e];
      } else {
        var kept := cache.Put(e, done);
        if !kept {
          unhandled := unhandled + [e];
        }
      }
    }

    method Deliver(e: Envelope) returns (any: bool)
      modifies this`received
      ensures received == old(received) + Deliveries(consumers, e)
      ensures any == (Deliveries(consumers, e) != [])
    {
      any := false;
      for i := 0 to |consumers|
        invariant received == old(received) + Deliveries(consumers[..i], e) && any == (Deliveries(consumers[..i], e) != [])
      {
        assert consumers[..i + 1][..i] == consumers[..i];
        if consumers[i].predicate_(e) {
          received := received + [Delivery(consumers[i].consumer, e)];
          any := true;
        }
      }
      assert consumers[..|consumers|] == consumers;
    }

    method IndexOf(c: Consumer) returns (i: nat)
      ensures i == Find(consumers, c)
    {
      i := 0;
      while i < |consumers|
        invariant i <= Find(consumers, c)
      {
        if consumers[i].consumer == c {
          return;
        }
        i := i + 1;
      }
    }

    /** Fails for a closed consumer; a consumer that is already subscribed is the source's panic. The new
        subscriber gets what it wants of the cache. */
    method Subscribe(c: Consumer, p: Predicate, open: bool) returns (ok: bool)
      requires Valid()
      modifies this, cache, cache.msgs
      ensures Valid() && cache.msgs == old(cache.msgs) && cache.preds == old(cache.preds)
      ensures ok == (open && Find(old(consumers), c) == |old(consumers)|)
      ensures State() == Step(old(State()), Event.Subscribe(c, p, open))
    {
      var i := IndexOf(c);
      if i < |consumers| || !open {
        return false;
      }
      consumers := consumers + [Subscription(c, p)];
      var cached := cache.Get(p);
      for k := 0 to |cached|
        invariant received == old(received) + HandOver(c, cached[..k])
        modifies this`received
      {
        received := received + [Delivery(c, cached[k])];
        assert HandOver(c, cached[..k + 1]) == HandOver(c, cached[..k]) + [Delivery(c, cached[k])];
      }
      assert cached[..|cached|] == cached;
      later := later + cached;
      ok := true;
    }

    method EnableCache(ctx: nat, p: Predicate)
      requires Valid()
      modifies cache, cache.preds
      ensures Valid() && cache.msgs == old(cache.msgs) && (cache.preds == old(cache.preds) || fresh(cache.preds))
      ensures State() == Step(old(State()), Event.EnableCache(ctx, p))
    {
      cache.Cache(ctx, p);
    }

    /** A consumer that is not subscribed is the source's panic. */
    method Delete(c: Consumer) returns (ok: bool)
      requires Valid()
      modifies this`consumers
      ensures Valid() && ok == (Find(old(consumers), c) < |old(consumers)|)
      ensures State() == Step(old(State()), Event.Delete(c))
    {
      var i := IndexOf(c);
      ok := i < |consumers|;
      if ok {
        consumers := consumers[i := consumers[|consumers| - 1]];
        consumers := consumers[..|consumers| - 1];
      }
    }
  }
}

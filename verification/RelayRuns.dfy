/** What a run of the relay does, told from its events alone: who is subscribed, who gets an envelope, what the cache
    keeps and for how long (wire/relay.go, wire/cache.go). */
module RelayRuns {
  import opened Base
  import opened Relays

  // ----- who is subscribed

  /** The consumers that subscribed while they were open and not subscribed, and were not deleted since. */
  function Subscribers(events: seq<Event>): map<Consumer, Predicate> {
    if events == [] then map[]
    else
      var m := Subscribers(events[..|events| - 1]);
      match events[|events| - 1]
      case Subscribe(c, p, open) => if open && c !in m then m[c := p] else m
      case Delete(c) => m - {c}
      case _ => m
  }

  /** Deleting takes out exactly the one subscription. */
  lemma RemoveIsExact(subs: seq<Subscription>, i: nat)
    requires i < |subs|
    ensures multiset(Remove(subs, i)) == multiset(subs) - multiset{subs[i]}
  {
    var n := |subs| - 1;
    if i < n {
      assert subs == subs[..i] + [subs[i]] + subs[i + 1..n] + [subs[n]];
      assert Remove(subs, i) == subs[..i] + [subs[n]] + subs[i + 1..n];
    } else {
      assert subs == subs[..n] + [subs[n]];
      assert Remove(subs, i) == subs[..n];
    }
  }

  lemma RemovedMembers(subs: seq<Subscription>, i: nat)
    requires i < |subs|
    ensures DistinctConsumers(subs) ==>
              forall s :: s in Remove(subs, i) <==> s in subs && s.consumer != subs[i].consumer
  {
    if DistinctConsumers(subs) {
      var n, r := |subs| - 1, Remove(subs, i);
      forall s | s in subs && s.consumer != subs[i].consumer
        ensures s in r
      {
        var j :| 0 <= j < |subs| && subs[j] == s;
        assert r[if j == n then i else j] == s;
      }
      forall s | s in r
        ensures s in subs && s.consumer != subs[i].consumer
      {
        var j :| 0 <= j < |r| && r[j] == s;
        assert s == subs[if j == i then n else j];
      }
    }
  }

  ghost predicate Lists(subs: seq<Subscription>, m: map<Consumer, Predicate>) {
    && DistinctConsumers(subs)
    && forall c, p :: Subscription(c, p) in subs <==> c in m && m[c] == p
  }

  lemma FoundIff(subs: seq<Subscription>, m: map<Consumer, Predicate>, c: Consumer)
    requires Lists(subs, m)
    ensures Find(subs, c) < |subs| <==> c in m
  {
    if Find(subs, c) < |subs| {
      var s := subs[Find(subs, c)];
      assert Subscription(c, s.predicate_) in subs;
    }
    if c in m {
      assert Subscription(c, m[c]) in subs;
      var i :| 0 <= i < |subs| && subs[i] == Subscription(c, m[c]);
    }
  }

  /** In every run the relay's list holds exactly the subscribers that the events tell, each once. */
  lemma {:induction false} SubscribersOnEveryRun(events: seq<Event>)
    ensures Lists(Run(events).subs, Subscribers(events))
  {
    if events != [] {
      var init, last := events[..|events| - 1], events[|events| - 1];
      SubscribersOnEveryRun(init);
      var subs, m := Run(init).subs, Subscribers(init);
      match last
      case Subscribe(c, p, open) => FoundIff(subs, m, c);
      case Delete(c) =>
        FoundIff(subs, m, c);
        if c in m {
          RunInv(events, 0);
          RemovedMembers(subs, Find(subs, c));
        }
      case _ =>
    }
  }

  // ----- who gets an envelope

  function Puts(events: seq<Event>): nat {
    if events == [] then 0 else Puts(events[..|events| - 1]) + if events[|events| - 1].Put? then 1 else 0
  }

  lemma {:induction false} ArrivedCounts(events: seq<Event>)
    ensures Run(events).arrived == Puts(events)
  {
    if events != [] {
      ArrivedCounts(events[..|events| - 1]);
    }
  }

  predicate Takes(m: map<Consumer, Predicate>, c: Consumer, e: Envelope) {
    c in m && m[c](e)
  }

  ghost predicate NoTaker(m: map<Consumer, Predicate>, e: Envelope) {
    forall c :: !Takes(m, c, e)
  }

  lemma TakersGet(events: seq<Event>, e: Envelope)
    ensures forall c :: Delivery(c, e) in Deliveries(Run(events).subs, e) <==> Takes(Subscribers(events), c, e)
    ensures forall d :: d in Deliveries(Run(events).subs, e) ==> d.e == e
    ensures Deliveries(Run(events).subs, e) == [] <==> NoTaker(Subscribers(events), e)
  {
    var subs, m := Run(events).subs, Subscribers(events);
    SubscribersOnEveryRun(events);
    DeliveredOnce(subs, e);
    forall c
      ensures Delivery(c, e) in Deliveries(subs, e) <==> Takes(m, c, e)
    {
      if Takes(m, c, e) {
        assert Subscription(c, m[c]) in subs;
        var i :| 0 <= i < |subs| && subs[i] == Subscription(c, m[c]);
      }
      if Delivery(c, e) in Deliveries(subs, e) {
        var i :| 0 <= i < |subs| && subs[i].consumer == c && subs[i].predicate_(e);
        assert Subscription(c, subs[i].predicate_) in subs;
      }
    }
    if Deliveries(subs, e) != [] {
      var d := Deliveries(subs, e)[0];
      assert d in Deliveries(subs, e);
      assert Takes(m, d.consumer, e);
    }
  }

  /** The envelope that the k-th event brings. */
  function Brought(events: seq<Event>, k: nat): Envelope
    requires k < |events| && events[k].Put?
  {
    Envelope(Puts(events[..k]), events[k].content)
  }

  lemma RunAt(events: seq<Event>, k: nat)
    requires k < |events|
    ensures events[..k + 1][..k] == events[..k]
    ensures Run(events[..k + 1]) == Step(Run(events[..k]), events[k])
  {
    assert events[..k + 1][..k] == events[..k];
  }

  // ----- which predicates are active

  /** The k-th event ends a context: an envelope that nobody takes comes to the cache while it is done. */
  ghost predicate Ends(events: seq<Event>, k: nat, ctx: nat) {
    k < |events| && events[k].Put? && ctx in events[k].done && NoTaker(Subscribers(events[..k]), Brought(events, k))
  }

  /** The k-th event enables caching for x, and nothing has ended its context since. */
  ghost predicate Enabled(events: seq<Event>, k: nat, x: CtxPredicate) {
    k < |events| && events[k] == EnableCache(x.ctx, x.p) && forall j: nat :: k < j ==> !Ends(events, j, x.ctx)
  }

  lemma EndsPrefix(events: seq<Event>, ctx: nat)
    requires events != []
    ensures forall k: nat :: k < |events| - 1 ==> (Ends(events, k, ctx) <==> Ends(events[..|events| - 1], k, ctx))
  {
    var init := events[..|events| - 1];
    forall k: nat | k < |init|
      ensures Ends(events, k, ctx) <==> Ends(init, k, ctx)
    {
      assert init[..k] == events[..k];
    }
  }

  lemma EnabledSnoc(events: seq<Event>, k: nat, x: CtxPredicate)
    requires events != []
    ensures Enabled(events, k, x) <==>
            (k < |events| - 1 && Enabled(events[..|events| - 1], k, x) && !Ends(events, |events| - 1, x.ctx)) ||
            (k == |events| - 1 && events[k] == EnableCache(x.ctx, x.p))
  {
    var init, n := events[..|events| - 1], |events| - 1;
    EndsPrefix(events, x.ctx);
    if k < n && Enabled(init, k, x) && !Ends(events, n, x.ctx) {
      forall j: nat | k < j
        ensures !Ends(events, j, x.ctx)
      {
        assert j < n ==> !Ends(init, j, x.ctx);
      }
    }
    if k < n && Enabled(events, k, x) {
      forall j: nat | k < j
        ensures !Ends(init, j, x.ctx)
      {
        assert !Ends(events, j, x.ctx);
      }
    }
  }

  /** In every run the cache's predicates are exactly those enabled and not ended. */
  lemma {:induction false} PredicatesOnEveryRun(events: seq<Event>, x: CtxPredicate)
    ensures x in Run(events).cache.preds <==> exists k: nat :: Enabled(events, k, x)
  {
    if events != [] {
      var init, n := events[..|events| - 1], |events| - 1;
      PredicatesOnEveryRun(init, x);
      PredicateStep(events, x);
      if k: nat :| Enabled(init, k, x) {
        EnabledSnoc(events, k, x);
      }
      if k: nat :| Enabled(events, k, x) {
        EnabledSnoc(events, k, x);
      }
      EnabledSnoc(events, n, x);
    }
  }

  lemma PutFilters(r: RelayState, content: bytes, done: set<nat>, x: CtxPredicate)
    ensures var e := Envelope(r.arrived, content);
            x in Step(r, Put(content, done)).cache.preds <==> x in r.cache.preds && (Deliveries(r.subs, e) != [] || x.ctx !in done)
  {
    FilterMember(r.cache.preds, Active(done), x);
  }

  lemma EnablingAdds(r: RelayState, ev: Event, x: CtxPredicate)
    requires !ev.Put?
    ensures x in Step(r, ev).cache.preds <==> x in r.cache.preds || ev == EnableCache(x.ctx, x.p)
  {
  }

  lemma PredicateStep(events: seq<Event>, x: CtxPredicate)
    requires events != []
    ensures var n := |events| - 1;
            x in Run(events).cache.preds <==>
            (x in Run(events[..n]).cache.preds && !Ends(events, n, x.ctx)) || events[n] == EnableCache(x.ctx, x.p)
  {
    var n := |events| - 1;
    if events[n].Put? {
      ArrivedCounts(events[..n]);
      TakersGet(events[..n], Brought(events, n));
      PutFilters(Run(events[..n]), events[n].content, events[n].done, x);
    } else {
      EnablingAdds(Run(events[..n]), events[n], x);
    }
  }

  // ----- what becomes of an envelope

  /** Somebody asked for the envelope to be kept. */
  ghost predicate Awaited(events: seq<Event>, done: set<nat>, e: Envelope) {
    exists x: CtxPredicate, k: nat :: Enabled(events, k, x) && x.ctx !in done && x.p(e)
  }

  lemma WantedIffAwaited(events: seq<Event>, done: set<nat>, e: Envelope)
    ensures Wanted(Run(events).cache.preds, done, e) <==> Awaited(events, done, e)
  {
    var preds := Run(events).cache.preds;
    if Wanted(preds, done, e) {
      var i :| 0 <= i < |preds| && preds[i].ctx !in done && preds[i].p(e);
      PredicatesOnEveryRun(events, preds[i]);
    }
    if Awaited(events, done, e) {
      var x: CtxPredicate, k: nat :| Enabled(events, k, x) && x.ctx !in done && x.p(e);
      PredicatesOnEveryRun(events, x);
      var i :| 0 <= i < |preds| && preds[i] == x;
    }
  }

  /** An arriving envelope goes to exactly the subscribers that take it; if there is none it is kept exactly if it is awaited, and
      goes to the default handler otherwise. */
  lemma ArrivalDecides(events: seq<Event>, content: bytes, done: set<nat>)
    ensures var r, n := Run(events), Run(events + [Put(content, done)]);
            var e := Envelope(Puts(events), content);
            && (forall c :: Delivery(c, e) in n.received <==> Takes(Subscribers(events), c, e))
            && (e in n.direct <==> !NoTaker(Subscribers(events), e))
            && (e in n.cache.msgs <==> NoTaker(Subscribers(events), e) && Awaited(events, done, e))
            && (e in n.unhandled <==> NoTaker(Subscribers(events), e) && !Awaited(events, done, e))
            && n.subs == r.subs
  {
    var r, ev := Run(events), Put(content, done);
    var e := Envelope(Puts(events), content);
    assert (events + [ev])[..|events|] == events;
    ArrivedCounts(events);
    TakersGet(events, e);
    WantedIffAwaited(events, done, e);
    NewcomerIsNew(events, e);
  }

  lemma {:induction false} CountMember(es: seq<Envelope>, e: Envelope)
    ensures e in es ==> Count(es, e.no) > 0
  {
    if es != [] {
      var n := |es| - 1;
      CountMember(es[..n], e);
      assert es == es[..n] + [es[n]];
    }
  }

  lemma NewcomerIsNew(events: seq<Event>, e: Envelope)
    requires e.no == Run(events).arrived
    ensures var r := Run(events);
            e !in r.direct && e !in r.cache.msgs && e !in r.unhandled && forall c :: Delivery(c, e) !in r.received
  {
    var r := Run(events);
    RunInv(events, e.no);
    CountMember(r.direct, e);
    CountMember(r.cache.msgs, e);
    CountMember(r.unhandled, e);
  }

  /** After a consumer is deleted an envelope goes to exactly those it would have gone to otherwise, but for that consumer. */
  lemma DeletedGetsNothing(events: seq<Event>, c: Consumer, content: bytes, done: set<nat>)
    ensures var e := Envelope(Puts(events), content);
            forall x :: Delivery(x, e) in Run(events + [Delete(c)] + [Put(content, done)]).received <==>
                        x != c && Delivery(x, e) in Run(events + [Put(content, done)]).received
  {
    AfterDelete(events, c);
    ArrivalReaches(events, content, done);
    ArrivalReaches(events + [Delete(c)], content, done);
  }

  lemma AfterDelete(events: seq<Event>, c: Consumer)
    ensures var after := events + [Delete(c)];
            Puts(after) == Puts(events) && Subscribers(after) == Subscribers(events) - {c}
  {
    assert (events + [Delete(c)])[..|events|] == events;
  }

  lemma ArrivalReaches(events: seq<Event>, content: bytes, done: set<nat>)
    ensures forall c :: Delivery(c, Envelope(Puts(events), content)) in Run(events + [Put(content, done)]).received <==>
                        Takes(Subscribers(events), c, Envelope(Puts(events), content))
  {
    ArrivalDecides(events, content, done);
  }

  // ----- how long an envelope stays in the cache

  /** The k-th event takes the envelope out of the cache: a consumer that was free to subscribe asks for it. */
  predicate Fetches(events: seq<Event>, k: nat, e: Envelope) {
    k < |events| && events[k].Subscribe? && events[k].open && events[k].consumer !in Subscribers(events[..k]) && events[k].p(e)
  }

  /** The k-th event brings the envelope, nobody takes it and somebody awaits it. */
  ghost predicate Keeps(events: seq<Event>, k: nat, e: Envelope) {
    && k < |events| && events[k].Put? && e == Brought(events, k)
    && NoTaker(Subscribers(events[..k]), e) && Awaited(events[..k], events[k].done, e)
  }

  lemma FetchesPrefix(events: seq<Event>, e: Envelope)
    requires events != []
    ensures forall k: nat :: k < |events| - 1 ==> (Fetches(events, k, e) <==> Fetches(events[..|events| - 1], k, e))
    ensures forall k: nat :: k < |events| - 1 ==> (Keeps(events, k, e) <==> Keeps(events[..|events| - 1], k, e))
  {
    var init := events[..|events| - 1];
    forall k: nat | k < |init|
      ensures Fetches(events, k, e) <==> Fetches(init, k, e)
      ensures Keeps(events, k, e) <==> Keeps(init, k, e)
    {
      assert init[..k] == events[..k];
    }
  }

  /** Kept by the k-th event and not fetched since. */
  ghost predicate Waits(events: seq<Event>, k: nat, e: Envelope) {
    Keeps(events, k, e) && forall j: nat :: k < j ==> !Fetches(events, j, e)
  }

  lemma WaitsSnoc(events: seq<Event>, k: nat, e: Envelope)
    requires events != []
    ensures Waits(events, k, e) <==>
            (k < |events| - 1 && Waits(events[..|events| - 1], k, e) && !Fetches(events, |events| - 1, e)) ||
            (k == |events| - 1 && Keeps(events, k, e))
  {
    var init, n := events[..|events| - 1], |events| - 1;
    FetchesPrefix(events, e);
    if k < n && Waits(init, k, e) && !Fetches(events, n, e) {
      forall j: nat | k < j
        ensures !Fetches(events, j, e)
      {
        assert j < n ==> !Fetches(init, j, e);
      }
    }
    if k < n && Waits(events, k, e) {
      forall j: nat | k < j
        ensures !Fetches(init, j, e)
      {
        assert !Fetches(events, j, e);
      }
    }
  }

  lemma CacheAfterPut(events: seq<Event>, e: Envelope)
    requires events != [] && events[|events| - 1].Put?
    ensures var n := |events| - 1;
            e in Run(events).cache.msgs <==> e in Run(events[..n]).cache.msgs || Keeps(events, n, e)
  {
    var n := |events| - 1;
    var new_ := Brought(events, n);
    ArrivedCounts(events[..n]);
    TakersGet(events[..n], new_);
    WantedIffAwaited(events[..n], events[n].done, new_);
  }

  lemma CacheAfterSubscribe(events: seq<Event>, e: Envelope)
    requires events != [] && events[|events| - 1].Subscribe?
    ensures var n := |events| - 1;
            e in Run(events).cache.msgs <==> e in Run(events[..n]).cache.msgs && !Fetches(events, n, e)
  {
    var n := |events| - 1;
    var init, r, ev := events[..n], Run(events[..n]), events[n];
    SubscribersOnEveryRun(init);
    FoundIff(r.subs, Subscribers(init), ev.consumer);
    FilterMember(r.cache.msgs, Not(ev.p), e);
  }

  lemma CacheStep(events: seq<Event>, e: Envelope)
    requires events != []
    ensures var n := |events| - 1;
            e in Run(events).cache.msgs <==>
            (e in Run(events[..n]).cache.msgs && !Fetches(events, n, e)) || Keeps(events, n, e)
  {
    match events[|events| - 1]
    case Put(_, _) => CacheAfterPut(events, e);
    case Subscribe(_, _, _) => CacheAfterSubscribe(events, e);
    case _ =>
  }

  /** In every run the cache holds exactly the envelopes that were kept and not fetched since. */
  lemma {:induction false} CacheOnEveryRun(events: seq<Event>, e: Envelope)
    ensures e in Run(events).cache.msgs <==> exists k: nat :: Waits(events, k, e)
  {
    if events != [] {
      var init, n := events[..|events| - 1], |events| - 1;
      CacheOnEveryRun(init, e);
      CacheStep(events, e);
      if k: nat :| Waits(init, k, e) {
        WaitsSnoc(events, k, e);
      }
      if k: nat :| Waits(events, k, e) {
        WaitsSnoc(events, k, e);
      }
      WaitsSnoc(events, n, e);
    }
  }

  // ----- who has received what

  /** The k-th event brings the envelope while the consumer is subscribed and takes it. */
  ghost predicate GetsOnArrival(events: seq<Event>, k: nat, c: Consumer, e: Envelope) {
    k < |events| && events[k].Put? && e == Brought(events, k) && Takes(Subscribers(events[..k]), c, e)
  }

  /** The k-th event subscribes the consumer, which takes the envelope out of the cache. */
  ghost predicate GetsLater(events: seq<Event>, k: nat, c: Consumer, e: Envelope) {
    Fetches(events, k, e) && events[k].consumer == c && exists i: nat :: Waits(events[..k], i, e)
  }

  ghost predicate Gets(events: seq<Event>, k: nat, c: Consumer, e: Envelope) {
    GetsOnArrival(events, k, c, e) || GetsLater(events, k, c, e)
  }

  lemma GetsPrefix(events: seq<Event>, c: Consumer, e: Envelope, k: nat)
    requires events != [] && k < |events| - 1
    ensures Gets(events, k, c, e) <==> Gets(events[..|events| - 1], k, c, e)
  {
    assert events[..|events| - 1][..k] == events[..k];
  }

  lemma HandedOver(c: Consumer, es: seq<Envelope>, x: Consumer, e: Envelope)
    ensures Delivery(x, e) in HandOver(c, es) <==> x == c && e in es
  {
    if x == c && e in es {
      var i :| 0 <= i < |es| && es[i] == e;
      assert HandOver(c, es)[i] == Delivery(c, e);
    }
  }

  lemma DeliveryOfPut(events: seq<Event>, c: Consumer, e: Envelope)
    requires events != [] && events[|events| - 1].Put?
    ensures Delivery(c, e) in Run(events).received <==>
            Delivery(c, e) in Run(events[..|events| - 1]).received || GetsOnArrival(events, |events| - 1, c, e)
  {
    var n := |events| - 1;
    ArrivedCounts(events[..n]);
    TakersGet(events[..n], Brought(events, n));
  }

  lemma DeliveryOfSubscribe(events: seq<Event>, c: Consumer, e: Envelope)
    requires events != [] && events[|events| - 1].Subscribe?
    ensures var n := |events| - 1;
            Delivery(c, e) in Run(events).received <==>
            Delivery(c, e) in Run(events[..n]).received ||
            (Fetches(events, n, e) && events[n].consumer == c && e in Run(events[..n]).cache.msgs)
  {
    var n := |events| - 1;
    var init, r, ev := events[..n], Run(events[..n]), events[n];
    SubscribersOnEveryRun(init);
    FoundIff(r.subs, Subscribers(init), ev.consumer);
    FilterMember(r.cache.msgs, ev.p, e);
    HandedOver(ev.consumer, Filter(r.cache.msgs, ev.p), c, e);
  }

  lemma DeliveryStep(events: seq<Event>, c: Consumer, e: Envelope)
    requires events != []
    ensures Delivery(c, e) in Run(events).received <==>
            Delivery(c, e) in Run(events[..|events| - 1]).received || Gets(events, |events| - 1, c, e)
  {
    match events[|events| - 1]
    case Put(_, _) => DeliveryOfPut(events, c, e);
    case Subscribe(_, _, _) =>
      DeliveryOfSubscribe(events, c, e);
      CacheOnEveryRun(events[..|events| - 1], e);
    case _ =>
  }

  /** In every run a consumer has received exactly the envelopes that arrived while it was subscribed and took them, and
      those it fetched from the cache. */
  lemma {:induction false} ReceivedOnEveryRun(events: seq<Event>, c: Consumer, e: Envelope)
    ensures Delivery(c, e) in Run(events).received <==> exists k: nat :: Gets(events, k, c, e)
  {
    if events != [] {
      var init, n := events[..|events| - 1], |events| - 1;
      ReceivedOnEveryRun(init, c, e);
      DeliveryStep(events, c, e);
      if k: nat :| Gets(init, k, c, e) {
        GetsPrefix(events, c, e, k);
      }
      if k: nat :| Gets(events, k, c, e) && k < n {
        GetsPrefix(events, c, e, k);
      }
    }
  }
}

/** What the dedup cache is needed for: quotes without a sequence, snapshots and partials
    alike, and no others. */
module CacheLaws {
  import opened Wrappers
  import opened Instruments
  import opened AdapterModel
  import opened AdapterLaws

  /** No prices can be published for the envelope after this quote, whatever is cached. */
  ghost predicate Unpublishable(c: Config, prev: Option<Quote>, e: Envelope) {
    forall bid: Decimal, ask: Decimal :: !Publishable(c, prev, e, bid, ask)
  }

  lemma UnpublishableIsSilent(c: Config, s: State, e: Envelope)
    requires Unpublishable(c, Lookup(s.quotes, KeyOf(e)), e)
    ensures TickFrom(c, s, Receive(e)) == None && Move(c, s, Receive(e)).quotes == s.quotes
  {
    if TickFrom(c, s, Receive(e)).Some? {
      var t := TickFrom(c, s, Receive(e)).value;
      PublishesExactlyWhen(c, s, e, t.bid, t.ask);
    }
  }

  // --------------------------------------------------- negative lifetimes

  lemma OneEntryPurged(c: Config, x: Seen, now: int)
    requires x.seenAt == now && c.cacheTtl < 0
    ensures Purge(c, [x], now) == []
  {
    assert [x][1..] == [];
    assert Unexpired([x], now - c.cacheTtl) == [];
  }

  /** With a negative lifetime nothing stays cached. */
  lemma {:induction false} EmptyCacheRun(c: Config, s: State, steps: seq<Step>)
    requires c.cacheTtl < 0 && s.seen == []
    ensures Ticks(c, s, steps) == BareTicks(c, s.quotes, steps) && Run(c, s, steps).seen == []
    decreases |steps|
  {
    if steps != [] {
      EmptyCacheStep(c, s, steps[0]);
      EmptyCacheRun(c, Move(c, s, steps[0]), steps[1..]);
    }
  }

  lemma EmptyCacheStep(c: Config, s: State, a: Step)
    requires c.cacheTtl < 0 && s.seen == []
    ensures Move(c, s, a).seen == [] && Move(c, s, a).quotes == Bare(c, s.quotes, a).0
    ensures TickFrom(c, s, a) == Bare(c, s.quotes, a).1
  {
    if a.Receive? {
      var e := a.envelope;
      var now := CollectorTime(e);
      assert Purge(c, [], now) == [];
      if !Raises(e) && Assess(c, Lookup(s.quotes, KeyOf(e)), e).Accept? {
        var q := Assess(c, Lookup(s.quotes, KeyOf(e)), e).quote;
        var x := Seen(IdentityOf(q), now, q.key);
        OneEntryPurged(c, x, now);
        assert [] + [x] == [x];
      }
    }
  }

  // ------------------------------------- a published quote that comes again

  /** Right after its publication, nothing but its own sequence, the age limit of partials and
      the cache stands against a quote. */
  lemma AgainPublishable(c: Config, s: State, e: Envelope, bid: Decimal, ask: Decimal)
    requires TickFrom(c, s, Receive(e)).Some?
    ensures var t := TickFrom(c, s, Receive(e)).value;
            && e.payload.Object?
            && (Publishable(c, Lookup(Move(c, s, Receive(e)).quotes, KeyOf(e)), e, bid, ask) <==>
                  && bid == t.bid && ask == t.ask && SequenceOf(e) == None
                  && (e.semantics == Partial ==> c.partialMaxAge >= 0))
  {
    var t := TickFrom(c, s, Receive(e)).value;
    PublishesExactlyWhen(c, s, e, t.bid, t.ask);
    PublishedTick(c, s, e);
    var prev := Lookup(Move(c, s, Receive(e)).quotes, KeyOf(e));
    assert prev == Some(QuoteOf(t)) && t.updatedAt == e.receivedAt;
    NextPublishable(c, Lookup(s.quotes, KeyOf(e)), e, t, bid, ask);
  }

  lemma NextPublishable(c: Config, prev: Option<Quote>, e: Envelope, t: Tick, bid: Decimal, ask: Decimal)
    requires Publishable(c, prev, e, t.bid, t.ask)
    requires t.updatedAt == e.receivedAt && t.orderTime == OrderTime(e) && t.sequence == SequenceOf(e)
    ensures Publishable(c, Some(QuoteOf(t)), e, bid, ask) <==>
              && bid == t.bid && ask == t.ask && SequenceOf(e) == None
              && (e.semantics == Partial ==> c.partialMaxAge >= 0)
  {
  }

  /** The cache cannot hold anything. */
  predicate KeepsNothing(c: Config) { c.cacheMax <= 1 || c.cacheTtl < 0 }

  /** Its identity is still cached, unless the cache is set to keep nothing. */
  lemma AgainCached(c: Config, s: State, e: Envelope)
    requires DistinctSeen(s.seen) && (c.cacheTtl < 0 ==> s.seen == []) && TickFrom(c, s, Receive(e)).Some?
    ensures IdentityIn(c, s, e).Some?
    ensures (exists x | x in Purge(c, Move(c, s, Receive(e)).seen, CollectorTime(e)) :: x.id == IdentityIn(c, s, e).value)
            <==> !KeepsNothing(c)
  {
    var now := CollectorTime(e);
    var s1 := Move(c, s, Receive(e));
    PublishedTick(c, s, e);
    PurgeFacts(c, s1.seen, now);
    if c.cacheTtl < 0 {
      EmptyCacheStep(c, s, Receive(e));
    } else if c.cacheMax >= 2 {
      PublishedIsCached(c, s, e);
      var id := IdentityIn(c, s, e).value;
      var x := Seen(id, now, id.key);
      TouchedIsYoungest(c, s, e, x);
      PurgeHolds(c, s1.seen, now, x, {});
      var k :| 0 <= k < |Purge(c, s1.seen, now)| && Purge(c, s1.seen, now)[k] == x;
      assert x in Purge(c, s1.seen, now);
    }
  }

  lemma IdentityOfTick(c: Config, s: State, e: Envelope)
    requires TickFrom(c, s, Receive(e)).Some?
    ensures var t := TickFrom(c, s, Receive(e)).value;
            && e.payload.Object? && e.payload.instrument.Some?
            && IdentityIn(c, s, e) == Some(IdentityWith(e, t.bid, t.ask))
  {
    var t := TickFrom(c, s, Receive(e)).value;
    PublishedTick(c, s, e);
    AcceptsExactlyWhen(c, Lookup(s.quotes, KeyOf(e)), e, t.bid, t.ask);
  }

  lemma AgainExactlyWhen(c: Config, s: State, e: Envelope)
    requires DistinctSeen(s.seen) && (c.cacheTtl < 0 ==> s.seen == []) && TickFrom(c, s, Receive(e)).Some?
    ensures e.payload.Object?
    ensures TickFrom(c, Move(c, s, Receive(e)), Receive(e)).Some? <==>
              SequenceOf(e) == None && KeepsNothing(c) && (e.semantics == Partial ==> c.partialMaxAge >= 0)
  {
    var t := TickFrom(c, s, Receive(e)).value;
    var s1 := Move(c, s, Receive(e));
    IdentityOfTick(c, s, e);
    AgainCached(c, s, e);
    AgainPublishable(c, s, e, t.bid, t.ask);
    PublishesExactlyWhen(c, s1, e, t.bid, t.ask);
    if TickFrom(c, s1, Receive(e)).Some? {
      var t2 := TickFrom(c, s1, Receive(e)).value;
      PublishesExactlyWhen(c, s1, e, t2.bid, t2.ask);
      AgainPublishable(c, s, e, t2.bid, t2.ask);
    }
  }

  /** In every run: a quote just published, snapshot or partial, is published again when it
      comes again at once, exactly when it carries no sequence and the cache keeps nothing;
      a partial, moreover, when its own publication is not too old for it. */
  lemma RepeatIsPublishedExactlyWhen(c: Config, before: seq<Step>, e: Envelope)
    requires TickFrom(c, Run(c, START, before), Receive(e)).Some?
    ensures e.payload.Object?
    ensures TickFrom(c, Move(c, Run(c, START, before), Receive(e)), Receive(e)).Some? <==>
              SequenceOf(e) == None && KeepsNothing(c) && (e.semantics == Partial ==> c.partialMaxAge >= 0)
  {
    RunStaysDistinct(c, START, before);
    if c.cacheTtl < 0 {
      EmptyCacheRun(c, START, before);
    }
    AgainExactlyWhen(c, Run(c, START, before), e);
  }

  // ------------------------------- which streams tell cache sizes apart

  /** The live quotes after a run, without a cache. */
  function BareQuotes(c: Config, m: map<Key, Quote>, steps: seq<Step>): map<Key, Quote>
    decreases |steps|
  {
    if steps == [] then m else BareQuotes(c, Bare(c, m, steps[0]).0, steps[1..])
  }

  lemma {:induction false} OrderedRunIsBare(c: Config, s: State, steps: seq<Step>)
    requires AllCovered(s) && forall a | a in steps :: Ordered(a)
    ensures Run(c, s, steps).quotes == BareQuotes(c, s.quotes, steps) && AllCovered(Run(c, s, steps))
    decreases |steps|
  {
    if steps != [] {
      OrderedStepIgnoresCache(c, s, steps[0]);
      OrderedStepKeepsCovered(c, s, steps[0]);
      OrderedRunIsBare(c, Move(c, s, steps[0]), steps[1..]);
    }
  }

  lemma {:induction false} BareQuotesIgnoreSize(c: Config, m: map<Key, Quote>, steps: seq<Step>, size: nat)
    ensures BareQuotes(c.(cacheMax := size), m, steps) == BareQuotes(c, m, steps)
    decreases |steps|
  {
    if steps != [] {
      assert c.(cacheMax := size) == c.(cacheMax := size, cacheTtl := c.cacheTtl);
      BareStepIgnoresCacheSettings(c, m, steps[0], size, c.cacheTtl);
      BareQuotesIgnoreSize(c, Bare(c, m, steps[0]).0, steps[1..], size);
    }
  }

  lemma {:induction false} TicksConcat(c: Config, s: State, a: seq<Step>, b: seq<Step>)
    ensures Ticks(c, s, a + b) == Ticks(c, s, a) + Ticks(c, Run(c, s, a), b)
    decreases |a|
  {
    if a == [] {
      assert a + b == b;
    } else {
      assert (a + b)[0] == a[0] && (a + b)[1..] == a[1..] + b;
      TicksConcat(c, Move(c, s, a[0]), a[1..], b);
    }
  }

  lemma TicksOfPair(c: Config, s: State, e: Envelope)
    ensures Ticks(c, s, [Receive(e), Receive(e)])
            == Listed(TickFrom(c, s, Receive(e))) + Listed(TickFrom(c, Move(c, s, Receive(e)), Receive(e)))
  {
    var s1 := Move(c, s, Receive(e));
    assert [Receive(e), Receive(e)][1..] == [Receive(e)] && [Receive(e)][1..] == [];
    assert Ticks(c, s1, [Receive(e)]) == Listed(TickFrom(c, s1, Receive(e))) + [];
  }

  /** An envelope without a sequence is not in a cache of envelopes that carry one. */
  lemma UnorderedIsNew(c: Config, s: State, e: Envelope)
    requires AllCovered(s) && !Ordered(Receive(e))
    ensures TickFrom(c, s, Receive(e)) == Bare(c, s.quotes, Receive(e)).1
    ensures TickFrom(c, s, Receive(e)) == None <==> Unpublishable(c, Lookup(s.quotes, KeyOf(e)), e)
  {
    var prev, now := Lookup(s.quotes, KeyOf(e)), CollectorTime(e);
    PurgeFacts(c, s.seen, now);
    if Assess(c, prev, e).Accept? {
      AcceptedFacts(c, prev, e);
      var q := Assess(c, prev, e).quote;
      forall x | x in Purge(c, s.seen, now) ensures x.id != IdentityOf(q) {
        assert Covered(s, x);
      }
    }
    if Unpublishable(c, prev, e) {
      UnpublishableIsSilent(c, s, e);
    } else {
      var bid: Decimal, ask: Decimal :| Publishable(c, prev, e, bid, ask);
      forall x | x in Purge(c, s.seen, now) ensures x.id != IdentityWith(e, bid, ask) {
        assert Covered(s, x);
      }
      PublishesExactlyWhen(c, s, e, bid, ask);
    }
  }

  lemma PublishableIgnoresSize(c: Config, prev: Option<Quote>, e: Envelope, size: nat)
    ensures Unpublishable(c.(cacheMax := size), prev, e) <==> Unpublishable(c, prev, e)
  {
    forall bid: Decimal, ask: Decimal
      ensures Publishable(c.(cacheMax := size), prev, e, bid, ask) <==> Publishable(c, prev, e, bid, ask)
    {
    }
  }

  /** What follows an ordered stream when an envelope without a sequence comes twice. */
  lemma UnorderedTwice(c: Config, before: seq<Step>, e: Envelope, m: nat)
    requires (forall a | a in before :: Ordered(a)) && !Ordered(Receive(e))
    ensures var quotes := BareQuotes(c, map[], before);
            var t := Bare(c, quotes, Receive(e)).1;
            var again := t.Some? && KeepsNothing(c.(cacheMax := m)) && (e.semantics == Partial ==> c.partialMaxAge >= 0);
            && (t == None <==> Unpublishable(c, Lookup(quotes, KeyOf(e)), e))
            && |Ticks(c.(cacheMax := m), START, before + [Receive(e), Receive(e)])|
               == |BareTicks(c, map[], before)| + (if t.Some? then 1 else 0) + (if again then 1 else 0)
            && (!again ==> Ticks(c.(cacheMax := m), START, before + [Receive(e), Receive(e)])
                           == BareTicks(c, map[], before) + Listed(t))
  {
    var c1 := c.(cacheMax := m);
    assert c1 == c.(cacheMax := m, cacheTtl := c.cacheTtl);
    var s := Run(c1, START, before);
    OrderedRunIsBare(c1, START, before);
    OrderedRunIgnoresCache(c1, START, before);
    BareIgnoresCacheSettings(c, map[], before, m, c.cacheTtl);
    BareQuotesIgnoreSize(c, map[], before, m);
    BareStepIgnoresCacheSettings(c, s.quotes, Receive(e), m, c.cacheTtl);
    PublishableIgnoresSize(c, Lookup(s.quotes, KeyOf(e)), e, m);
    UnorderedIsNew(c1, s, e);
    TicksConcat(c1, START, before, [Receive(e), Receive(e)]);
    TicksOfPair(c1, s, e);
    SecondOf(c1, before, e);
  }

  lemma SecondOf(c: Config, before: seq<Step>, e: Envelope)
    requires !Ordered(Receive(e)) && forall a | a in before :: Ordered(a)
    ensures var s := Run(c, START, before);
            TickFrom(c, Move(c, s, Receive(e)), Receive(e)).Some? <==>
              && TickFrom(c, s, Receive(e)).Some? && KeepsNothing(c)
              && (e.semantics == Partial ==> c.partialMaxAge >= 0)
  {
    var s := Run(c, START, before);
    OrderedRunIsBare(c, START, before);
    UnorderedIsNew(c, s, e);
    if TickFrom(c, s, Receive(e)).Some? {
      RepeatIsPublishedExactlyWhen(c, before, e);
    } else {
      UnpublishableIsSilent(c, s, e);
      UnpublishableIsSilent(c, Move(c, s, Receive(e)), e);
    }
  }

  /** After every stream that carries sequences: what an envelope sent twice publishes does not
      depend on the cache size, exactly when it carries a sequence itself, no prices of it can
      be published then, it is a partial that its own publication is too old for, or the
      lifetime is negative. So quotes without a sequence, snapshots and partials alike, need
      the cache. */
  lemma SizeMattersExactlyWhen(c: Config, before: seq<Step>, e: Envelope)
    requires forall a | a in before :: Ordered(a)
    ensures (forall m: nat, n: nat ::
               Ticks(c.(cacheMax := m), START, before + [Receive(e), Receive(e)])
               == Ticks(c.(cacheMax := n), START, before + [Receive(e), Receive(e)]))
            <==>
            || Ordered(Receive(e))
            || Unpublishable(c, Lookup(BareQuotes(c, map[], before), KeyOf(e)), e)
            || (e.semantics == Partial && c.partialMaxAge < 0)
            || c.cacheTtl < 0
  {
    var all := before + [Receive(e), Receive(e)];
    if c.cacheTtl < 0 {
      forall m: nat, n: nat
        ensures Ticks(c.(cacheMax := m), START, all) == Ticks(c.(cacheMax := n), START, all)
      {
        UncachedSizes(c, all, m);
        UncachedSizes(c, all, n);
      }
    } else if Ordered(Receive(e)) {
      forall m: nat, n: nat
        ensures Ticks(c.(cacheMax := m), START, all) == Ticks(c.(cacheMax := n), START, all)
      {
        OrderedSizes(c, all, m);
        OrderedSizes(c, all, n);
      }
    } else if Unpublishable(c, Lookup(BareQuotes(c, map[], before), KeyOf(e)), e)
              || (e.semantics == Partial && c.partialMaxAge < 0) {
      forall m: nat, n: nat
        ensures Ticks(c.(cacheMax := m), START, all) == Ticks(c.(cacheMax := n), START, all)
      {
        UnorderedTwice(c, before, e, m);
        UnorderedTwice(c, before, e, n);
      }
    } else {
      UnorderedTwice(c, before, e, 1);
      UnorderedTwice(c, before, e, 2);
      assert |Ticks(c.(cacheMax := 1), START, all)| != |Ticks(c.(cacheMax := 2), START, all)|;
    }
  }

  lemma UncachedSizes(c: Config, steps: seq<Step>, m: nat)
    requires c.cacheTtl < 0
    ensures Ticks(c.(cacheMax := m), START, steps) == BareTicks(c, map[], steps)
  {
    assert c.(cacheMax := m) == c.(cacheMax := m, cacheTtl := c.cacheTtl);
    EmptyCacheRun(c.(cacheMax := m), START, steps);
    BareIgnoresCacheSettings(c, map[], steps, m, c.cacheTtl);
  }

  lemma OrderedSizes(c: Config, steps: seq<Step>, m: nat)
    requires forall a | a in steps :: Ordered(a)
    ensures Ticks(c.(cacheMax := m), START, steps) == Ticks(c, START, steps)
  {
    assert c.(cacheMax := m) == c.(cacheMax := m, cacheTtl := c.cacheTtl);
    CacheSettingsAreInvisible(c, steps, m, c.cacheTtl);
  }

  // --------------------------------------------- quotes that need the cache

  const SOME_PRICE := Decimal(1.25, 2)

  /** Provider quotes of one key at time 0: a snapshot, numbered or not, and an unnumbered partial. */
  function ProviderSnapshot(sequence: Option<int>): Envelope {
    Envelope(0, 0, 0, None, None, None, None, 0, Snapshot,
             Object(Some(EURUSD), false, At(0), sequence, Some(SOME_PRICE), Some(SOME_PRICE)), false, false, None)
  }

  const PROVIDER_PARTIAL :=
    Envelope(0, 0, 0, None, None, None, None, 0, Partial,
             Object(Some(EURUSD), false, At(0), None, Some(SOME_PRICE), None), false, false, None)

  /** Both kinds occur: an unnumbered snapshot sent twice, and an unnumbered partial sent twice
      after a numbered snapshot, are published once more when the cache keeps nothing. */
  lemma UnnumberedQuotesNeedTheCache(c: Config)
    requires c.cacheTtl >= 0 && c.futureSkew >= 0 && c.partialMaxAge >= 0
    ensures var e := ProviderSnapshot(None);
            && |Ticks(c.(cacheMax := 1), START, [Receive(e), Receive(e)])| == 2
            && |Ticks(c.(cacheMax := 9), START, [Receive(e), Receive(e)])| == 1
    ensures var steps := [Receive(ProviderSnapshot(Some(1))), Receive(PROVIDER_PARTIAL), Receive(PROVIDER_PARTIAL)];
            && |Ticks(c.(cacheMax := 1), START, steps)| == 3
            && |Ticks(c.(cacheMax := 9), START, steps)| == 2
  {
    SnapshotTwice(c);
    PartialTwice(c);
  }

  lemma SnapshotTwice(c: Config)
    requires c.cacheTtl >= 0 && c.futureSkew >= 0
    ensures var e := ProviderSnapshot(None);
            && |Ticks(c.(cacheMax := 1), START, [Receive(e), Receive(e)])| == 2
            && |Ticks(c.(cacheMax := 9), START, [Receive(e), Receive(e)])| == 1
  {
    var e := ProviderSnapshot(None);
    assert Publishable(c, None, e, SOME_PRICE, SOME_PRICE);
    assert [] + [Receive(e), Receive(e)] == [Receive(e), Receive(e)];
    UnorderedTwice(c, [], e, 1);
    UnorderedTwice(c, [], e, 9);
  }

  lemma PartialTwice(c: Config)
    requires c.cacheTtl >= 0 && c.futureSkew >= 0 && c.partialMaxAge >= 0
    ensures var steps := [Receive(ProviderSnapshot(Some(1))), Receive(PROVIDER_PARTIAL), Receive(PROVIDER_PARTIAL)];
            && |Ticks(c.(cacheMax := 1), START, steps)| == 3
            && |Ticks(c.(cacheMax := 9), START, steps)| == 2
  {
    var before, e := [Receive(ProviderSnapshot(Some(1)))], PROVIDER_PARTIAL;
    NumberedFirst(c);
    assert before + [Receive(e), Receive(e)] == [Receive(ProviderSnapshot(Some(1))), Receive(e), Receive(e)];
    UnorderedTwice(c, before, e, 1);
    UnorderedTwice(c, before, e, 9);
  }

  lemma NumberedFirst(c: Config)
    requires c.futureSkew >= 0 && c.partialMaxAge >= 0
    ensures var before := [Receive(ProviderSnapshot(Some(1)))];
            && |BareTicks(c, map[], before)| == 1
            && !Unpublishable(c, Lookup(BareQuotes(c, map[], before), KeyOf(PROVIDER_PARTIAL)), PROVIDER_PARTIAL)
  {
    var first := ProviderSnapshot(Some(1));
    var before := [Receive(first)];
    assert Purge(c, [], 0) == [];
    PublishesExactlyWhen(c, START, first, SOME_PRICE, SOME_PRICE);
    OrderedStepIgnoresCache(c, START, Receive(first));
    assert before[1..] == [];
    var quote := Quote(SOME_PRICE, SOME_PRICE, 0, 0, Some(1));
    PublishedTick(c, START, first);
    assert Lookup(BareQuotes(c, map[], before), KeyOf(PROVIDER_PARTIAL)) == Some(quote);
    assert Publishable(c, Some(quote), PROVIDER_PARTIAL, SOME_PRICE, SOME_PRICE);
  }
}

/** Exactly how the adapter answers every envelope: which check it fails first, or that it is a
    repeat, or what is published and with which warnings. The checks are stated one by one,
    each by itself, in terms of the envelope and the key's live quote. */
module AdapterRules {
  import opened Wrappers
  import opened Instruments
  import opened AdapterModel
  import opened AdapterLaws

  // -------------------------------------------------------------- the checks

  predicate Displayed(e: Envelope) {
    e.payload.Object? && (e.payload.visibleSource || e.displayLevel)
  }

  predicate Unsequenced(prev: Option<Quote>) { prev.None? || prev.value.sequence.None? }

  /** The envelope by itself fails this check, one of those made before the cache is asked. */
  ghost predicate Fails(c: Config, prev: Option<Quote>, e: Envelope, check: Rule) {
    match check
    case StructPayloadSize => e.oversize
    case StructPayloadObject => e.payload.NotAnObject?
    case StructInstrument => e.payload.Object? && e.payload.instrument == None
    case TimeParseUtc => !Displayed(e) && e.payload.Object? && e.payload.providerTime.Malformed?
    case TimeFutureSkew =>
      !Displayed(e) && e.payload.Object? && e.payload.providerTime.At?
      && e.payload.providerTime.time - e.receivedAt > c.futureSkew
    case SeqObservationMissing => Displayed(e) && e.observationSequence == None
    case SeqRepeated =>
      Displayed(e) && Unsequenced(prev) && e.observationSequence.Some? && e.observationSequence == e.persistedLast
    case SeqOutOfOrder =>
      Displayed(e) && Unsequenced(prev) && e.observationSequence.Some? && e.persistedLast.Some?
      && e.observationSequence.value < e.persistedLast.value
    case SnapshotMissingBid => e.semantics == Snapshot && e.payload.Object? && e.payload.bid == None
    case SnapshotMissingAsk => e.semantics == Snapshot && e.payload.Object? && e.payload.ask == None
    case PartialChangedSide =>
      e.semantics == Partial && e.payload.Object? && (e.payload.bid == None <==> e.payload.ask == None)
    case PartialNoSafeState => e.semantics == Partial && prev == None
    case PartialStaleState =>
      e.semantics == Partial && prev.Some? && e.receivedAt - prev.value.updatedAt > c.partialMaxAge
    case SemanticsUnknown => e.semantics == Unknown
    case NumPricePositive => exists bid, ask :: Offers(c, prev, e, bid, ask) && (bid.value <= 0.0 || ask.value <= 0.0)
    case NumPriceBroadRange =>
      exists bid, ask :: Offers(c, prev, e, bid, ask)
        && (bid.value < SpecOf(e.payload.instrument.value).minPrice
            || ask.value > SpecOf(e.payload.instrument.value).maxPrice)
    case NumCrossedQuote => exists bid, ask :: Offers(c, prev, e, bid, ask) && ask.value < bid.value
    case _ => false
  }

  /** The bid and ask it stands for, of a supported pair. */
  ghost predicate Offers(c: Config, prev: Option<Quote>, e: Envelope, bid: Decimal, ask: Decimal) {
    e.payload.Object? && e.payload.instrument.Some? && Quotes(c, prev, e, bid, ask)
  }

  const CHECKS: seq<Rule> := [
    StructPayloadSize, StructPayloadObject, StructInstrument, TimeParseUtc, TimeFutureSkew,
    SeqObservationMissing, SeqRepeated, SeqOutOfOrder, SnapshotMissingBid, SnapshotMissingAsk,
    PartialChangedSide, PartialNoSafeState, PartialStaleState, SemanticsUnknown,
    NumPricePositive, NumPriceBroadRange, NumCrossedQuote]

  /** It passes the first k checks. */
  ghost predicate Passes(c: Config, prev: Option<Quote>, e: Envelope, k: nat)
    requires k <= |CHECKS|
  {
    forall j | 0 <= j < k :: !Fails(c, prev, e, CHECKS[j])
  }

  // ---------------------------------------------- before the cache is asked

  lemma StructureFirst(c: Config, prev: Option<Quote>, e: Envelope, k: nat)
    requires k < 5 && Passes(c, prev, e, k) && Fails(c, prev, e, CHECKS[k])
    ensures Assess(c, prev, e) == Reject(CHECKS[k])
  {
    assert CHECKS[0] == StructPayloadSize && CHECKS[1] == StructPayloadObject && CHECKS[2] == StructInstrument;
    assert CHECKS[3] == TimeParseUtc && CHECKS[4] == TimeFutureSkew;
  }

  /** What the first five checks leave. */
  lemma Structured(c: Config, prev: Option<Quote>, e: Envelope)
    requires Passes(c, prev, e, 5)
    ensures !e.oversize && e.payload.Object? && e.payload.instrument.Some? && Timely(c, e)
  {
    assert CHECKS[0] == StructPayloadSize && CHECKS[1] == StructPayloadObject && CHECKS[2] == StructInstrument;
    assert CHECKS[3] == TimeParseUtc && CHECKS[4] == TimeFutureSkew;
  }

  lemma SequenceNext(c: Config, prev: Option<Quote>, e: Envelope, k: nat)
    requires 5 <= k < 8 && Passes(c, prev, e, k) && Fails(c, prev, e, CHECKS[k])
    ensures Assess(c, prev, e) == Reject(CHECKS[k])
  {
    Structured(c, prev, e);
    assert CHECKS[5] == SeqObservationMissing && CHECKS[6] == SeqRepeated && CHECKS[7] == SeqOutOfOrder;
  }

  lemma Sequenced(c: Config, prev: Option<Quote>, e: Envelope)
    requires Passes(c, prev, e, 8)
    ensures !e.oversize && e.payload.Object? && e.payload.instrument.Some? && Timely(c, e)
    ensures (Visible(e) ==> SequenceOf(e).Some?) && PersistedRule(e, prev) == None
  {
    Structured(c, prev, e);
    assert CHECKS[5] == SeqObservationMissing && CHECKS[6] == SeqRepeated && CHECKS[7] == SeqOutOfOrder;
  }

  lemma SidesThen(c: Config, prev: Option<Quote>, e: Envelope, k: nat)
    requires 8 <= k < 14 && Passes(c, prev, e, k) && Fails(c, prev, e, CHECKS[k])
    ensures Assess(c, prev, e) == Reject(CHECKS[k])
  {
    Sequenced(c, prev, e);
    assert CHECKS[8] == SnapshotMissingBid && CHECKS[9] == SnapshotMissingAsk && CHECKS[10] == PartialChangedSide;
    assert CHECKS[11] == PartialNoSafeState && CHECKS[12] == PartialStaleState && CHECKS[13] == SemanticsUnknown;
    assert SidesOf(c, prev, e) == Missing(CHECKS[k]);
  }

  /** Past the checks of its sides a quote is complete. */
  lemma Complete(c: Config, prev: Option<Quote>, e: Envelope) returns (bid: Decimal, ask: Decimal)
    requires Passes(c, prev, e, 14)
    ensures Offers(c, prev, e, bid, ask) && SidesOf(c, prev, e).Both?
    ensures SidesOf(c, prev, e).bid == bid && SidesOf(c, prev, e).ask == ask
    ensures forall b, a | Offers(c, prev, e, b, a) :: b == bid && a == ask
  {
    Sequenced(c, prev, e);
    assert CHECKS[8] == SnapshotMissingBid && CHECKS[9] == SnapshotMissingAsk && CHECKS[10] == PartialChangedSide;
    assert CHECKS[11] == PartialNoSafeState && CHECKS[12] == PartialStaleState && CHECKS[13] == SemanticsUnknown;
    bid, ask := SidesOf(c, prev, e).bid, SidesOf(c, prev, e).ask;
    SidesAreQuotes(c, prev, e, bid, ask);
    forall b, a | Offers(c, prev, e, b, a) ensures b == bid && a == ask {
      SidesAreQuotes(c, prev, e, b, a);
    }
  }

  lemma PricesLast(c: Config, prev: Option<Quote>, e: Envelope, k: nat)
    requires 14 <= k < 17 && Passes(c, prev, e, k) && Fails(c, prev, e, CHECKS[k])
    ensures Assess(c, prev, e) == Reject(CHECKS[k])
  {
    Sequenced(c, prev, e);
    var bid, ask := Complete(c, prev, e);
    assert CHECKS[14] == NumPricePositive && CHECKS[15] == NumPriceBroadRange && CHECKS[16] == NumCrossedQuote;
    assert PriceRule(e.payload.instrument.value, bid.value, ask.value) == Some(CHECKS[k]);
  }

  lemma RejectedByFirst(c: Config, prev: Option<Quote>, e: Envelope, k: nat)
    requires k < |CHECKS| && Passes(c, prev, e, k) && Fails(c, prev, e, CHECKS[k])
    ensures Assess(c, prev, e) == Reject(CHECKS[k])
  {
    if k < 5 {
      StructureFirst(c, prev, e, k);
    } else if k < 8 {
      SequenceNext(c, prev, e, k);
    } else if k < 14 {
      SidesThen(c, prev, e, k);
    } else {
      PricesLast(c, prev, e, k);
    }
  }

  /** A quote that passes every check is complete and plausible, and it is accepted. */
  lemma PassesAll(c: Config, prev: Option<Quote>, e: Envelope) returns (bid: Decimal, ask: Decimal)
    requires Passes(c, prev, e, |CHECKS|)
    ensures Acceptable(c, prev, e, bid, ask)
    ensures Assess(c, prev, e).Accept? && Assess(c, prev, e).quote == Offered(e, bid, ask)
    ensures forall b, a | Offers(c, prev, e, b, a) :: b == bid && a == ask
  {
    Sequenced(c, prev, e);
    bid, ask := Complete(c, prev, e);
    assert CHECKS[14] == NumPricePositive && CHECKS[15] == NumPriceBroadRange && CHECKS[16] == NumCrossedQuote;
    AcceptsExactlyWhen(c, prev, e, bid, ask);
    AcceptedIsOffered(c, prev, e);
  }

  /** The quote as it was observed: all of it but the tick's warnings. */
  function Offered(e: Envelope, bid: Decimal, ask: Decimal): Candidate
    requires e.payload.Object? && e.payload.instrument.Some?
  {
    Candidate(
      Key(e.conn, e.session, e.payload.instrument.value), bid, ask,
      if Displayed(e) then e.observationSequence else e.payload.sequence,
      OrderedAt(e),
      if !Displayed(e) && e.payload.providerTime.At? then ProviderTime else BrowserObservation,
      e.semantics == Snapshot,
      if e.semantics == Snapshot then [Bid, Ask] else if e.payload.bid.Some? then [Bid] else [Ask])
  }

  /** The time it is ordered by: the provider's, or when the browser saw it, or its receipt. */
  function OrderedAt(e: Envelope): int
    requires e.payload.Object?
  {
    if !Displayed(e) && e.payload.providerTime.At? then e.payload.providerTime.time
    else if e.browserObservedAt.Some? then e.browserObservedAt.value
    else e.receivedAt
  }

  lemma AcceptedIsOffered(c: Config, prev: Option<Quote>, e: Envelope)
    requires Assess(c, prev, e).Accept?
    ensures e.payload.Object? && e.payload.instrument.Some?
    ensures var q := Assess(c, prev, e).quote; q == Offered(e, q.bid, q.ask)
  {
  }

  // ----------------------------------------------- after the cache was asked

  /** What a quote that is no repeat is warned of, each by itself. */
  predicate Warned(c: Config, prev: Option<Quote>, e: Envelope, bid: Decimal, ask: Decimal, warning: Rule)
    requires e.payload.Object? && e.payload.instrument.Some?
  {
    var spec := SpecOf(e.payload.instrument.value);
    match warning
    case TimeProviderUnavailable => Displayed(e) || !e.payload.providerTime.At?
    case TimeLocalWallClockAdjustment => prev.Some? && OrderedAt(e) < prev.value.orderTime
    case PlausExtremeJump =>
      && prev.Some?
      && var twice := (bid.value + ask.value) - (prev.value.bid.value + prev.value.ask.value);
         var limit := 2.0 * Configured(c.jumpLimit, spec.jumpPips) * spec.pipSize;
         twice > limit || -twice > limit
    case PlausExtremeSpread => ask.value - bid.value > Configured(c.spreadLimit, spec.spreadPips) * spec.pipSize
    case TimeNegativeDelay => Displayed(e) && Delay(e) < 0
    case TimeExcessiveDelay => Displayed(e) && Delay(e) > c.maxDelay
    case _ => false
  }

  /** The configured limit; none, or zero, stands for the pair's own. */
  function Configured(limit: Option<real>, own: real): real {
    match limit
    case Some(x) => if x == 0.0 then own else x
    case None => own
  }

  /** From the browser's observation to the collector's receipt. */
  function Delay(e: Envelope): int {
    (if e.collectorReceivedAt.Some? then e.collectorReceivedAt.value else e.receivedAt)
    - (if e.browserObservedAt.Some? then e.browserObservedAt.value else e.receivedAt)
  }

  const WARNINGS: seq<Rule> := [
    TimeProviderUnavailable, TimeLocalWallClockAdjustment, PlausExtremeJump, PlausExtremeSpread,
    TimeNegativeDelay, TimeExcessiveDelay]

  /** The first k warnings that apply, in their order. */
  function Listing(c: Config, prev: Option<Quote>, e: Envelope, bid: Decimal, ask: Decimal, k: nat): seq<Rule>
    requires e.payload.Object? && e.payload.instrument.Some? && k <= |WARNINGS|
  {
    if k == 0 then []
    else
      Listing(c, prev, e, bid, ask, k - 1)
      + (if Warned(c, prev, e, bid, ask, WARNINGS[k - 1]) then [WARNINGS[k - 1]] else [])
  }

  /** The configuration lets no tick pass that is warned of this. */
  predicate Forbids(c: Config, warning: Rule) {
    match warning
    case TimeLocalWallClockAdjustment => c.rejectClockAdjustment
    case TimeNegativeDelay => c.rejectNegativeDelay
    case TimeExcessiveDelay => c.rejectExcessiveDelay
    case _ => false
  }

  predicate Stops(c: Config, prev: Option<Quote>, e: Envelope, bid: Decimal, ask: Decimal, k: nat)
    requires e.payload.Object? && e.payload.instrument.Some? && k < |WARNINGS|
  {
    Warned(c, prev, e, bid, ask, WARNINGS[k]) && Forbids(c, WARNINGS[k])
  }

  function Numbered(e: Envelope): Option<int>
    requires e.payload.Object?
  {
    if Displayed(e) then e.observationSequence else e.payload.sequence
  }

  /** Its sequence is the live one, below it, or its time went back where that is no clock adjustment. */
  function StaleRule(prev: Option<Quote>, e: Envelope): Option<Rule>
    requires e.payload.Object?
  {
    var s := Numbered(e);
    if prev == None then None
    else if s.Some? && prev.value.sequence == s then Some(SeqRepeated)
    else if s.Some? && prev.value.sequence.Some? && s.value < prev.value.sequence.value then Some(SeqOutOfOrder)
    else if OrderedAt(e) < prev.value.orderTime && (s == None || !Displayed(e)) then Some(TimeOutOfOrder)
    else None
  }

  lemma WideIsWarned(c: Config, prev: Option<Quote>, e: Envelope, q: Candidate)
    requires e.payload.Object? && e.payload.instrument == Some(q.key.instrument)
    ensures WideSpread(c, q) <==> Warned(c, prev, e, q.bid, q.ask, PlausExtremeSpread)
  {
    var spec := SpecOf(q.key.instrument);
    Scaled(q.ask.value - q.bid.value, Or(c.spreadLimit, spec.spreadPips), spec.pipSize);
  }

  lemma JumpIsWarned(c: Config, prev: Quote, e: Envelope, q: Candidate)
    requires e.payload.Object? && e.payload.instrument == Some(q.key.instrument)
    ensures Jumps(c, prev, q) <==> Warned(c, Some(prev), e, q.bid, q.ask, PlausExtremeJump)
  {
    var spec := SpecOf(q.key.instrument);
    var move := Abs(Mid(q.bid, q.ask) - Mid(prev.bid, prev.ask));
    Scaled(move, Or(c.jumpLimit, spec.jumpPips), spec.pipSize);
    var twice := (q.bid.value + q.ask.value) - (prev.bid.value + prev.ask.value);
    assert 2.0 * move == if twice < 0.0 then -twice else twice;
    var limit := Or(c.jumpLimit, spec.jumpPips);
    assert 2.0 * limit * spec.pipSize == 2.0 * (limit * spec.pipSize);
  }

  lemma StaleIsSuppressed(c: Config, prev: Option<Quote>, e: Envelope, bid: Decimal, ask: Decimal)
    requires e.payload.Object? && e.payload.instrument.Some? && StaleRule(prev, e).Some?
    ensures Admit(c, prev, e, Offered(e, bid, ask)) == Suppress([StaleRule(prev, e).value])
  {
  }

  /** The warnings of the order checks, where nothing stops. */
  lemma OrderListing(c: Config, prev: Option<Quote>, e: Envelope, bid: Decimal, ask: Decimal)
    requires e.payload.Object? && e.payload.instrument.Some? && StaleRule(prev, e) == None
    ensures OrderRuling(c, prev, e, Offered(e, bid, ask)) ==
              if Stops(c, prev, e, bid, ask, 1) then Suppress(Listing(c, prev, e, bid, ask, 2))
              else Publish(Listing(c, prev, e, bid, ask, 3))
  {
    var q := Offered(e, bid, ask);
    if prev.Some? {
      JumpIsWarned(c, prev.value, e, q);
    }
    ListingStarts(c, prev, e, bid, ask);
  }

  lemma ListingStarts(c: Config, prev: Option<Quote>, e: Envelope, bid: Decimal, ask: Decimal)
    requires e.payload.Object? && e.payload.instrument.Some?
    ensures Listing(c, prev, e, bid, ask, 2) ==
              (if Warned(c, prev, e, bid, ask, TimeProviderUnavailable) then [TimeProviderUnavailable] else [])
              + (if Warned(c, prev, e, bid, ask, TimeLocalWallClockAdjustment) then [TimeLocalWallClockAdjustment] else [])
    ensures Listing(c, prev, e, bid, ask, 3) ==
              Listing(c, prev, e, bid, ask, 2)
              + (if Warned(c, prev, e, bid, ask, PlausExtremeJump) then [PlausExtremeJump] else [])
  {
    assert WARNINGS[0] == TimeProviderUnavailable && WARNINGS[1] == TimeLocalWallClockAdjustment;
    assert WARNINGS[2] == PlausExtremeJump;
    assert Listing(c, prev, e, bid, ask, 0) == [];
    assert Listing(c, prev, e, bid, ask, 1) ==
             if Warned(c, prev, e, bid, ask, TimeProviderUnavailable) then [TimeProviderUnavailable] else [];
  }

  lemma ListingEnds(c: Config, prev: Option<Quote>, e: Envelope, bid: Decimal, ask: Decimal)
    requires e.payload.Object? && e.payload.instrument.Some?
    ensures Listing(c, prev, e, bid, ask, 4) ==
              Listing(c, prev, e, bid, ask, 3)
              + (if Warned(c, prev, e, bid, ask, PlausExtremeSpread) then [PlausExtremeSpread] else [])
    ensures Listing(c, prev, e, bid, ask, 5) ==
              Listing(c, prev, e, bid, ask, 4)
              + (if Warned(c, prev, e, bid, ask, TimeNegativeDelay) then [TimeNegativeDelay] else [])
    ensures Listing(c, prev, e, bid, ask, 6) ==
              Listing(c, prev, e, bid, ask, 5)
              + (if Warned(c, prev, e, bid, ask, TimeExcessiveDelay) then [TimeExcessiveDelay] else [])
  {
    assert WARNINGS[3] == PlausExtremeSpread && WARNINGS[4] == TimeNegativeDelay && WARNINGS[5] == TimeExcessiveDelay;
  }

  /** The first warning that stops it, if any. */
  lemma AdmitListing(c: Config, prev: Option<Quote>, e: Envelope, bid: Decimal, ask: Decimal)
    requires e.payload.Object? && e.payload.instrument.Some? && StaleRule(prev, e) == None
    ensures Admit(c, prev, e, Offered(e, bid, ask)) ==
              if Stops(c, prev, e, bid, ask, 1) then Suppress(Listing(c, prev, e, bid, ask, 2))
              else if Stops(c, prev, e, bid, ask, 4) then Suppress(Listing(c, prev, e, bid, ask, 5))
              else if Stops(c, prev, e, bid, ask, 5) then Suppress(Listing(c, prev, e, bid, ask, 6))
              else Publish(Listing(c, prev, e, bid, ask, 6))
  {
    OrderListing(c, prev, e, bid, ask);
    WideIsWarned(c, prev, e, Offered(e, bid, ask));
    ListingEnds(c, prev, e, bid, ask);
    assert WARNINGS[4] == TimeNegativeDelay && WARNINGS[5] == TimeExcessiveDelay;
  }

  // ------------------------------------------------------------ the answers

  /** The quote's identity is in the cache. */
  ghost predicate Cached(c: Config, s: State, e: Envelope, bid: Decimal, ask: Decimal)
    requires e.payload.Object? && e.payload.instrument.Some?
  {
    exists x | x in Purge(c, s.seen, CollectorTime(e)) :: x.id == Named(e, bid, ask)
  }

  /** What identifies a quote. */
  function Named(e: Envelope, bid: Decimal, ask: Decimal): Identity
    requires e.payload.Object? && e.payload.instrument.Some?
  {
    Identity(Key(e.conn, e.session, e.payload.instrument.value), OrderedAt(e),
             if !Displayed(e) && e.payload.providerTime.At? then ProviderTime else BrowserObservation,
             bid, ask, Numbered(e))
  }

  /** The tick that is published of it. */
  function TickFor(e: Envelope, bid: Decimal, ask: Decimal, warnings: seq<Rule>): Tick
    requires e.payload.Object? && e.payload.instrument.Some?
  {
    Tick(Key(e.conn, e.session, e.payload.instrument.value), bid, ask, e.semantics == Snapshot,
         if e.semantics == Snapshot then [Bid, Ask] else if e.payload.bid.Some? then [Bid] else [Ask],
         Displayed(e), e.receivedAt, OrderedAt(e), Numbered(e), if Displayed(e) then e.doc else None, e.eventId, warnings)
  }

  /** Validation of the raw event: it raises exactly for display quotes numbered below 1. */
  lemma RaisesExactlyWhen(c: Config, s: State, e: Envelope)
    ensures Process(c, s, e).1.Raised? <==>
              Displayed(e) && e.observationSequence.Some? && e.observationSequence.value < 1
  {
  }

  /** One entry of this identity moved to the end, as it was. */
  ghost predicate Touched(seen: seq<Seen>, id: Identity, after: seq<Seen>) {
    exists k :: 0 <= k < |seen| && seen[k].id == id && after == seen[..k] + seen[k + 1..] + [seen[k]]
  }

  /** The state with its cache purged. */
  function Purging(c: Config, s: State, e: Envelope): State {
    State(s.quotes, Purge(c, s.seen, if e.collectorReceivedAt.Some? then e.collectorReceivedAt.value else e.receivedAt))
  }

  /** An envelope that fails a check is answered by the first one it fails, and by that alone;
      nothing else happens but the purge of the cache. */
  lemma FirstFailureAnswers(c: Config, s: State, e: Envelope, k: nat)
    requires !Process(c, s, e).1.Raised? && k < |CHECKS|
    requires Passes(c, Lookup(s.quotes, KeyOf(e)), e, k) && Fails(c, Lookup(s.quotes, KeyOf(e)), e, CHECKS[k])
    ensures Process(c, s, e) == (Purging(c, s, e), Output([CHECKS[k]], None))
  {
    RejectedByFirst(c, Lookup(s.quotes, KeyOf(e)), e, k);
  }

  /** An envelope that passes every check stands for one quote. A cached one is answered as a
      duplicate. Otherwise a stale one is answered by its rule; a warning the configuration
      forbids ends the list of warnings and withholds the tick; and without any, the tick is
      published as it was observed, with every warning that applies, and becomes the live quote. */
  lemma PassingAnswers(c: Config, s: State, e: Envelope) returns (bid: Decimal, ask: Decimal)
    requires !Process(c, s, e).1.Raised? && Passes(c, Lookup(s.quotes, KeyOf(e)), e, |CHECKS|)
    ensures Offers(c, Lookup(s.quotes, KeyOf(e)), e, bid, ask)
    ensures var prev, out := Lookup(s.quotes, KeyOf(e)), Process(c, s, e).1;
            if Cached(c, s, e, bid, ask) then out == Output([DupStrongKey], None)
            else if StaleRule(prev, e).Some? then out == Output([StaleRule(prev, e).value], None)
            else if Stops(c, prev, e, bid, ask, 1) then out == Output(Listing(c, prev, e, bid, ask, 2), None)
            else if Stops(c, prev, e, bid, ask, 4) then out == Output(Listing(c, prev, e, bid, ask, 5), None)
            else if Stops(c, prev, e, bid, ask, 5) then out == Output(Listing(c, prev, e, bid, ask, 6), None)
            else
              var warnings := Listing(c, prev, e, bid, ask, 6);
              var t := TickFor(e, bid, ask, warnings);
              && out == Output(warnings, Some(t))
              && Process(c, s, e).0.quotes ==
                   s.quotes[t.key := Quote(bid, ask, e.receivedAt, OrderedAt(e), Numbered(e))]
    ensures var (s1, out) := Process(c, s, e);
            && (out.tick == None ==> s1.quotes == s.quotes)
            && (out.tick == None && !Cached(c, s, e, bid, ask) ==> s1 == Purging(c, s, e))
            && (Cached(c, s, e, bid, ask) ==> Touched(Purging(c, s, e).seen, Named(e, bid, ask), s1.seen))
            && (out.tick.Some? ==>
                  s1.seen == Purge(c, Purging(c, s, e).seen + [Seen(Named(e, bid, ask), CollectorTime(e), out.tick.value.key)],
                                   CollectorTime(e)))
  {
    var prev := Lookup(s.quotes, KeyOf(e));
    bid, ask := PassesAll(c, prev, e);
    var seen := Purge(c, s.seen, CollectorTime(e));
    var q := Offered(e, bid, ask);
    assert IdentityOf(q) == Named(e, bid, ask);
    assert Cached(c, s, e, bid, ask) <==> Position(seen, IdentityOf(q)) < |seen|;
    if StaleRule(prev, e).Some? {
      StaleIsSuppressed(c, prev, e, bid, ask);
    } else {
      AdmitListing(c, prev, e, bid, ask);
    }
  }

  // ------------------------------------------------- exactly when each rule

  lemma {:induction false} FirstFailing(c: Config, prev: Option<Quote>, e: Envelope, n: nat) returns (k: nat)
    requires n <= |CHECKS|
    ensures k <= n && Passes(c, prev, e, k) && (k < n ==> Fails(c, prev, e, CHECKS[k]))
  {
    if n == 0 {
      k := 0;
    } else {
      k := FirstFailing(c, prev, e, n - 1);
      if k == n - 1 && !Fails(c, prev, e, CHECKS[k]) {
        k := n;
      }
    }
  }

  lemma {:induction false} ListingWarns(c: Config, prev: Option<Quote>, e: Envelope, bid: Decimal, ask: Decimal, k: nat)
    requires e.payload.Object? && e.payload.instrument.Some? && k <= |WARNINGS|
    ensures forall w | w in Listing(c, prev, e, bid, ask, k) :: w in WARNINGS
  {
    if k > 0 {
      ListingWarns(c, prev, e, bid, ask, k - 1);
    }
  }

  /** The three kinds of answer to a quote that passed every check. */
  lemma PassingKinds(c: Config, s: State, e: Envelope) returns (bid: Decimal, ask: Decimal)
    requires !Process(c, s, e).1.Raised? && Passes(c, Lookup(s.quotes, KeyOf(e)), e, |CHECKS|)
    ensures Offers(c, Lookup(s.quotes, KeyOf(e)), e, bid, ask)
    ensures forall b, a | Offers(c, Lookup(s.quotes, KeyOf(e)), e, b, a) :: b == bid && a == ask
    ensures var out, stale := Process(c, s, e).1, StaleRule(Lookup(s.quotes, KeyOf(e)), e);
            && (Cached(c, s, e, bid, ask) ==> out == Output([DupStrongKey], None))
            && (!Cached(c, s, e, bid, ask) && stale.Some? ==> out == Output([stale.value], None))
            && (!Cached(c, s, e, bid, ask) && stale.None? ==> forall r | r in out.rules :: r in WARNINGS)
  {
    var prev := Lookup(s.quotes, KeyOf(e));
    var b, a := PassesAll(c, prev, e);
    bid, ask := PassingAnswers(c, s, e);
    ListingWarns(c, prev, e, bid, ask, 2);
    ListingWarns(c, prev, e, bid, ask, 5);
    ListingWarns(c, prev, e, bid, ask, 6);
  }

  lemma StaleRules(prev: Option<Quote>, e: Envelope)
    requires e.payload.Object? && StaleRule(prev, e).Some?
    ensures StaleRule(prev, e).value in {SeqRepeated, SeqOutOfOrder, TimeOutOfOrder}
  {
  }

  /** Which rules a quote that passed every check can be answered with. */
  lemma PassingRules(c: Config, s: State, e: Envelope)
    requires !Process(c, s, e).1.Raised? && Passes(c, Lookup(s.quotes, KeyOf(e)), e, |CHECKS|)
    ensures var out := Process(c, s, e).1;
            (forall r | r in out.rules :: r in WARNINGS)
            || (out.tick == None && out.rules in {[DupStrongKey], [SeqRepeated], [SeqOutOfOrder], [TimeOutOfOrder]})
  {
    var bid, ask := PassingKinds(c, s, e);
    if StaleRule(Lookup(s.quotes, KeyOf(e)), e).Some? {
      StaleRules(Lookup(s.quotes, KeyOf(e)), e);
    }
  }

  lemma PassingIsNoCheck(c: Config, s: State, e: Envelope, k: nat)
    requires !Process(c, s, e).1.Raised? && Passes(c, Lookup(s.quotes, KeyOf(e)), e, |CHECKS|)
    requires k < |CHECKS| && CHECKS[k] != SeqRepeated && CHECKS[k] != SeqOutOfOrder
    ensures Process(c, s, e).1.rules != [CHECKS[k]]
  {
    PassingRules(c, s, e);
    assert [CHECKS[k]][0] == CHECKS[k];
    assert CHECKS[k] !in WARNINGS && CHECKS[k] != DupStrongKey && CHECKS[k] != TimeOutOfOrder;
  }

  /** Each check but those of the stored sequence is the answer exactly for the envelopes that
      fail it and none before it. */
  lemma CheckAnsweredExactlyWhen(c: Config, s: State, e: Envelope, k: nat)
    requires k < |CHECKS| && CHECKS[k] != SeqRepeated && CHECKS[k] != SeqOutOfOrder
    ensures var prev := Lookup(s.quotes, KeyOf(e));
            Process(c, s, e).1 == Output([CHECKS[k]], None) <==>
              && !(Displayed(e) && e.observationSequence.Some? && e.observationSequence.value < 1)
              && Passes(c, prev, e, k) && Fails(c, prev, e, CHECKS[k])
  {
    var prev := Lookup(s.quotes, KeyOf(e));
    RaisesExactlyWhen(c, s, e);
    if !Process(c, s, e).1.Raised? {
      var j := FirstFailing(c, prev, e, |CHECKS|);
      if j < |CHECKS| {
        FirstFailureAnswers(c, s, e, j);
        ChecksDiffer(j, k);
      } else {
        PassingIsNoCheck(c, s, e, k);
      }
    }
  }

  lemma ChecksDiffer(j: nat, k: nat)
    requires j < |CHECKS| && k < |CHECKS|
    ensures CHECKS[j] == CHECKS[k] <==> j == k
  {
  }

  /** The last sequence known of its key: the live one, or else for a display quote the stored one. */
  function Known(prev: Option<Quote>, e: Envelope): Option<int> {
    if !Unsequenced(prev) then prev.value.sequence
    else if Displayed(e) then e.persistedLast else None
  }

  /** It fails no check but perhaps those of the stored sequence, and is no repeat of a cached quote. */
  ghost predicate OtherwiseFine(c: Config, s: State, e: Envelope) {
    var prev := Lookup(s.quotes, KeyOf(e));
    && (forall k | 0 <= k < |CHECKS| && CHECKS[k] != SeqRepeated && CHECKS[k] != SeqOutOfOrder ::
          !Fails(c, prev, e, CHECKS[k]))
    && (forall bid, ask | Offers(c, prev, e, bid, ask) :: !Cached(c, s, e, bid, ask))
  }

  /** The sequence rules. A complete, plausible quote that is not cached is answered as out of
      order exactly when its sequence is below the one known of its key, and as repeated
      exactly when it is that one; each time by this rule alone, without a tick. */
  lemma SequenceAnsweredExactlyWhen(c: Config, s: State, e: Envelope)
    requires OtherwiseFine(c, s, e) && !Process(c, s, e).1.Raised?
    ensures e.payload.Object?
    ensures var known, own := Known(Lookup(s.quotes, KeyOf(e)), e), Numbered(e);
            && (Process(c, s, e).1 == Output([SeqOutOfOrder], None) <==>
                  known.Some? && own.Some? && own.value < known.value)
            && (Process(c, s, e).1 == Output([SeqRepeated], None) <==> own.Some? && own == known)
  {
    var prev := Lookup(s.quotes, KeyOf(e));
    assert CHECKS[1] == StructPayloadObject && CHECKS[6] == SeqRepeated && CHECKS[7] == SeqOutOfOrder;
    assert !Fails(c, prev, e, CHECKS[1]);
    forall j | 0 <= j < |CHECKS| && j != 6 && j != 7 ensures !Fails(c, prev, e, CHECKS[j]) {
      ChecksDiffer(j, 6);
      ChecksDiffer(j, 7);
    }
    if Fails(c, prev, e, SeqRepeated) {
      FirstFailureAnswers(c, s, e, 6);
    } else if Fails(c, prev, e, SeqOutOfOrder) {
      FirstFailureAnswers(c, s, e, 7);
    } else {
      PassingStale(c, s, e, SeqRepeated);
      PassingStale(c, s, e, SeqOutOfOrder);
    }
  }

  /** A duplicate is answered exactly for a quote that passes every check and is in the cache. */
  lemma RepeatAnsweredExactlyWhen(c: Config, s: State, e: Envelope)
    ensures Process(c, s, e).1 == Output([DupStrongKey], None) <==>
              && !(Displayed(e) && e.observationSequence.Some? && e.observationSequence.value < 1)
              && Passes(c, Lookup(s.quotes, KeyOf(e)), e, |CHECKS|)
              && exists bid, ask :: Offers(c, Lookup(s.quotes, KeyOf(e)), e, bid, ask) && Cached(c, s, e, bid, ask)
  {
    var prev := Lookup(s.quotes, KeyOf(e));
    RaisesExactlyWhen(c, s, e);
    if !Process(c, s, e).1.Raised? {
      var j := FirstFailing(c, prev, e, |CHECKS|);
      if j < |CHECKS| {
        FirstFailureAnswers(c, s, e, j);
        assert [CHECKS[j]][0] != DupStrongKey;
      } else {
        PassingRepeat(c, s, e);
      }
    }
  }

  lemma PassingRepeat(c: Config, s: State, e: Envelope)
    requires !Process(c, s, e).1.Raised? && Passes(c, Lookup(s.quotes, KeyOf(e)), e, |CHECKS|)
    ensures Process(c, s, e).1 == Output([DupStrongKey], None) <==>
              exists bid, ask :: Offers(c, Lookup(s.quotes, KeyOf(e)), e, bid, ask) && Cached(c, s, e, bid, ask)
  {
    var bid, ask := PassingKinds(c, s, e);
    assert [DupStrongKey][0] !in WARNINGS;
    if StaleRule(Lookup(s.quotes, KeyOf(e)), e).Some? {
      StaleRules(Lookup(s.quotes, KeyOf(e)), e);
    }
  }

  /** A quote that is no repeat is answered as out of order in time exactly when its time went
      back behind the live quote's, its sequence did not stay behind, and it is no numbered
      display quote, for which that is a clock adjustment. */
  lemma TimeAnsweredExactlyWhen(c: Config, s: State, e: Envelope)
    requires OtherwiseFine(c, s, e) && !Process(c, s, e).1.Raised?
    ensures e.payload.Object?
    ensures var prev, known, own := Lookup(s.quotes, KeyOf(e)), Known(Lookup(s.quotes, KeyOf(e)), e), Numbered(e);
            Process(c, s, e).1 == Output([TimeOutOfOrder], None) <==>
              && !(known.Some? && own.Some? && own.value <= known.value)
              && prev.Some? && OrderedAt(e) < prev.value.orderTime && !(Displayed(e) && own.Some?)
  {
    var prev := Lookup(s.quotes, KeyOf(e));
    SequenceAnsweredExactlyWhen(c, s, e);
    var j := FirstFailing(c, prev, e, |CHECKS|);
    if j < |CHECKS| {
      FirstFailureAnswers(c, s, e, j);
      assert [CHECKS[j]][0] != TimeOutOfOrder;
      OnlySequenceFails(c, s, e, j);
    } else {
      PassingStale(c, s, e, TimeOutOfOrder);
    }
  }

  lemma OnlySequenceFails(c: Config, s: State, e: Envelope, j: nat)
    requires OtherwiseFine(c, s, e) && j < |CHECKS| && Fails(c, Lookup(s.quotes, KeyOf(e)), e, CHECKS[j])
    ensures Fails(c, Lookup(s.quotes, KeyOf(e)), e, SeqRepeated) || Fails(c, Lookup(s.quotes, KeyOf(e)), e, SeqOutOfOrder)
  {
  }

  /** Past the checks and the cache, each rule about the live quote is answered when it applies. */
  lemma PassingStale(c: Config, s: State, e: Envelope, rule: Rule)
    requires OtherwiseFine(c, s, e) && !Process(c, s, e).1.Raised?
    requires Passes(c, Lookup(s.quotes, KeyOf(e)), e, |CHECKS|) && rule in {SeqRepeated, SeqOutOfOrder, TimeOutOfOrder}
    ensures e.payload.Object?
    ensures Process(c, s, e).1 == Output([rule], None) <==> StaleRule(Lookup(s.quotes, KeyOf(e)), e) == Some(rule)
  {
    var bid, ask := PassingKinds(c, s, e);
    assert [rule][0] == rule && rule !in WARNINGS;
  }
}

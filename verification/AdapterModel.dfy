/** The quote normalizer (adapter.py): per-key quote state and one shared, bounded,
    least-recently-used cache of published identities. */
module AdapterModel {
  import opened Wrappers
  import opened Instruments

  /** A decimal's value and the number of digits it was written with; both are part of its
      text, and so of a quote's identity. */
  datatype Decimal = Decimal(value: real, scale: int)

  datatype Key = Key(conn: nat, session: nat, instrument: Instrument)

  datatype Quote = Quote(
    bid: Decimal, ask: Decimal, updatedAt: int, orderTime: int, sequence: Option<int>)

  datatype Basis = ProviderTime | BrowserObservation

  /** What canonical_hash digests; the digest is taken to be injective. */
  datatype Identity = Identity(
    key: Key, orderTime: int, basis: Basis, bid: Decimal, ask: Decimal, sequence: Option<int>)

  datatype Seen = Seen(id: Identity, seenAt: int, key: Key)

  /** The cache is the ordered dictionary, oldest first. */
  datatype State = State(quotes: map<Key, Quote>, seen: seq<Seen>)

  datatype Config = Config(
    partialMaxAge: int, futureSkew: int, spreadLimit: Option<real>, jumpLimit: Option<real>,
    cacheMax: nat, cacheTtl: int, maxDelay: int,
    rejectNegativeDelay: bool, rejectExcessiveDelay: bool, rejectClockAdjustment: bool)

  datatype Semantics = Snapshot | Partial | Unknown

  datatype Time = Absent | Malformed | At(time: int)

  datatype Payload =
    | NotAnObject
    | Object(
        instrument: Option<Instrument>, visibleSource: bool, providerTime: Time,
        sequence: Option<int>, bid: Option<Decimal>, ask: Option<Decimal>)

  datatype Envelope = Envelope(
    eventId: nat, conn: nat, session: nat, doc: Option<nat>, observationSequence: Option<int>,
    browserObservedAt: Option<int>, collectorReceivedAt: Option<int>, receivedAt: int,
    semantics: Semantics, payload: Payload, oversize: bool, displayLevel: bool,
    persistedLast: Option<int>)

  datatype Rule =
    | StructPayloadSize | StructPayloadObject | StructInstrument | TimeParseUtc | TimeFutureSkew
    | SeqObservationMissing | SeqRepeated | SeqOutOfOrder
    | SnapshotMissingBid | SnapshotMissingAsk
    | PartialChangedSide | PartialNoSafeState | PartialStaleState | SemanticsUnknown
    | NumPricePositive | NumPriceBroadRange | NumCrossedQuote
    | DupStrongKey | TimeProviderUnavailable | TimeOutOfOrder | TimeLocalWallClockAdjustment
    | PlausExtremeJump | PlausExtremeSpread | TimeNegativeDelay | TimeExcessiveDelay

  datatype Side = Bid | Ask

  /** `updatedAt` is when the envelope was received; the age of the quote counts from it. */
  datatype Tick = Tick(
    key: Key, bid: Decimal, ask: Decimal, isSnapshot: bool, changed: seq<Side>, visible: bool,
    updatedAt: int, orderTime: int, sequence: Option<int>, doc: Option<nat>, rawId: nat,
    warnings: seq<Rule>)

  /** Raised: building the raw event failed validation, so process raised. */
  datatype Output = Output(rules: seq<Rule>, tick: Option<Tick>) | Raised

  // ------------------------------------------------------------------- parts

  function CollectorTime(e: Envelope): int {
    if e.collectorReceivedAt.Some? then e.collectorReceivedAt.value else e.receivedAt
  }

  function ObservedTime(e: Envelope): int {
    if e.browserObservedAt.Some? then e.browserObservedAt.value else e.receivedAt
  }

  predicate Visible(e: Envelope) {
    e.payload.Object? && (e.payload.visibleSource || e.displayLevel)
  }

  /** Raw events accept only positive observation sequences. */
  predicate Raises(e: Envelope) {
    Visible(e) && e.observationSequence.Some? && e.observationSequence.value < 1
  }

  function KeyOf(e: Envelope): Option<Key> {
    if e.payload.Object? && e.payload.instrument.Some?
    then Some(Key(e.conn, e.session, e.payload.instrument.value)) else None
  }

  function SequenceOf(e: Envelope): Option<int>
    requires e.payload.Object?
  {
    if Visible(e) then e.observationSequence else e.payload.sequence
  }

  function Limit(c: Config): nat { Max(1, c.cacheMax) }

  function Lookup(m: map<Key, Quote>, k: Option<Key>): Option<Quote> {
    if k.Some? && k.value in m then Some(m[k.value]) else None
  }

  function Or(limit: Option<real>, default: real): real {
    if limit.Some? && limit.value != 0.0 then limit.value else default
  }

  // --------------------------------------------------- from envelope to quote

  datatype Candidate = Candidate(
    key: Key, bid: Decimal, ask: Decimal, sequence: Option<int>, orderTime: int, basis: Basis,
    isSnapshot: bool, changed: seq<Side>)

  datatype Verdict = Reject(rule: Rule) | Accept(quote: Candidate)

  /** The persisted-sequence guard applies when no live sequence is known. */
  function PersistedRule(e: Envelope, prev: Option<Quote>): Option<Rule>
    requires e.payload.Object?
  {
    var s := SequenceOf(e);
    if Visible(e) && s.Some? && e.persistedLast.Some? && s.value <= e.persistedLast.value
       && (prev == None || prev.value.sequence == None)
    then Some(if s.value == e.persistedLast.value then SeqRepeated else SeqOutOfOrder)
    else None
  }

  datatype Sides = Missing(rule: Rule) | Both(bid: Decimal, ask: Decimal, isSnapshot: bool, changed: seq<Side>)

  /** Both sides of the quote: given by a snapshot, completed from state for a partial. */
  function SidesOf(c: Config, prev: Option<Quote>, e: Envelope): Sides
    requires e.payload.Object?
  {
    var bid, ask := e.payload.bid, e.payload.ask;
    match e.semantics
    case Snapshot =>
      if bid == None then Missing(SnapshotMissingBid)
      else if ask == None then Missing(SnapshotMissingAsk)
      else Both(bid.value, ask.value, true, [Bid, Ask])
    case Partial =>
      if bid.Some? == ask.Some? then Missing(PartialChangedSide)
      else if prev == None then Missing(PartialNoSafeState)
      else if e.receivedAt - prev.value.updatedAt > c.partialMaxAge then Missing(PartialStaleState)
      else if bid.Some? then Both(bid.value, prev.value.ask, false, [Bid])
      else Both(prev.value.bid, ask.value, false, [Ask])
    case Unknown => Missing(SemanticsUnknown)
  }

  function PriceRule(i: Instrument, bid: real, ask: real): Option<Rule> {
    if bid <= 0.0 || ask <= 0.0 then Some(NumPricePositive)
    else if bid < SpecOf(i).minPrice || ask > SpecOf(i).maxPrice then Some(NumPriceBroadRange)
    else if ask < bid then Some(NumCrossedQuote)
    else None
  }

  /** Everything that is decided before the cache is consulted. */
  function Assess(c: Config, prev: Option<Quote>, e: Envelope): Verdict {
    if e.oversize then Reject(StructPayloadSize)
    else if !e.payload.Object? then Reject(StructPayloadObject)
    else if e.payload.instrument == None then Reject(StructInstrument)
    else
      var providerTime := if Visible(e) then Absent else e.payload.providerTime;
      if providerTime.Malformed? then Reject(TimeParseUtc)
      else if providerTime.At? && providerTime.time > e.receivedAt + c.futureSkew then Reject(TimeFutureSkew)
      else if Visible(e) && SequenceOf(e) == None then Reject(SeqObservationMissing)
      else if PersistedRule(e, prev).Some? then Reject(PersistedRule(e, prev).value)
      else
        match SidesOf(c, prev, e)
        case Missing(rule) => Reject(rule)
        case Both(bid, ask, isSnapshot, changed) =>
          var i := e.payload.instrument.value;
          var priceRule := PriceRule(i, bid.value, ask.value);
          if priceRule.Some? then Reject(priceRule.value)
          else
            Accept(Candidate(
              Key(e.conn, e.session, i), bid, ask, SequenceOf(e),
              if providerTime.At? then providerTime.time else ObservedTime(e),
              if providerTime.At? then ProviderTime else BrowserObservation,
              isSnapshot, changed))
  }

  function IdentityOf(q: Candidate): Identity {
    Identity(q.key, q.orderTime, q.basis, q.bid, q.ask, q.sequence)
  }

  // ------------------------------------------------------ publish or suppress

  datatype Ruling = Suppress(rules: seq<Rule>) | Publish(warnings: seq<Rule>)

  function Mid(bid: Decimal, ask: Decimal): real { (bid.value + ask.value) / 2.0 }

  function Abs(x: real): real { if x < 0.0 then -x else x }

  predicate Jumps(c: Config, prev: Quote, q: Candidate) {
    Abs(Mid(q.bid, q.ask) - Mid(prev.bid, prev.ask)) / SpecOf(q.key.instrument).pipSize
      > Or(c.jumpLimit, SpecOf(q.key.instrument).jumpPips)
  }

  predicate WideSpread(c: Config, q: Candidate) {
    (q.ask.value - q.bid.value) / SpecOf(q.key.instrument).pipSize
      > Or(c.spreadLimit, SpecOf(q.key.instrument).spreadPips)
  }

  /** Order checks against the key's last published quote. */
  function OrderRuling(c: Config, prev: Option<Quote>, e: Envelope, q: Candidate): Ruling {
    var warnings := if q.basis == BrowserObservation then [TimeProviderUnavailable] else [];
    if prev == None then Publish(warnings)
    else if q.sequence.Some? && prev.value.sequence.Some? && q.sequence.value <= prev.value.sequence.value then
      Suppress([if q.sequence.value == prev.value.sequence.value then SeqRepeated else SeqOutOfOrder])
    else if q.orderTime < prev.value.orderTime then
      if Visible(e) && q.sequence.Some? then
        var more := warnings + [TimeLocalWallClockAdjustment];
        if c.rejectClockAdjustment then Suppress(more)
        else Publish(more + (if Jumps(c, prev.value, q) then [PlausExtremeJump] else []))
      else Suppress([TimeOutOfOrder])
    else Publish(warnings + (if Jumps(c, prev.value, q) then [PlausExtremeJump] else []))
  }

  /** Everything that is decided after the cache was consulted. */
  function Admit(c: Config, prev: Option<Quote>, e: Envelope, q: Candidate): Ruling {
    match OrderRuling(c, prev, e, q)
    case Suppress(rules) => Suppress(rules)
    case Publish(w0) =>
      var w1 := w0 + (if WideSpread(c, q) then [PlausExtremeSpread] else []);
      var delay := CollectorTime(e) - ObservedTime(e);
      var w2 := w1 + (if Visible(e) && delay < 0 then [TimeNegativeDelay] else []);
      if Visible(e) && delay < 0 && c.rejectNegativeDelay then Suppress(w2)
      else
        var w3 := w2 + (if Visible(e) && delay > c.maxDelay then [TimeExcessiveDelay] else []);
        if Visible(e) && delay > c.maxDelay && c.rejectExcessiveDelay then Suppress(w3)
        else Publish(w3)
  }

  function TickOf(e: Envelope, q: Candidate, warnings: seq<Rule>): Tick {
    Tick(q.key, q.bid, q.ask, q.isSnapshot, q.changed, Visible(e), e.receivedAt, q.orderTime,
         q.sequence, if Visible(e) then e.doc else None, e.eventId, warnings)
  }

  function QuoteOf(t: Tick): Quote {
    Quote(t.bid, t.ask, t.updatedAt, t.orderTime, t.sequence)
  }

  // ------------------------------------------------------------------- cache

  function Unexpired(seen: seq<Seen>, cutoff: int): seq<Seen> {
    if seen == [] || seen[0].seenAt >= cutoff then seen else Unexpired(seen[1..], cutoff)
  }

  function Trim(seen: seq<Seen>, limit: nat): seq<Seen>
    requires limit > 0
  {
    if |seen| < limit then seen else Trim(seen[1..], limit)
  }

  function Purge(c: Config, seen: seq<Seen>, now: int): seq<Seen> {
    Trim(Unexpired(seen, now - c.cacheTtl), Limit(c))
  }

  /** Position of an identity, or the length of the cache. */
  function Position(seen: seq<Seen>, id: Identity): (k: nat)
    ensures k <= |seen|
    ensures k < |seen| ==> seen[k].id == id
    ensures forall j | 0 <= j < k :: seen[j].id != id
  {
    if seen == [] || seen[0].id == id then 0 else 1 + Position(seen[1..], id)
  }

  function MoveToEnd(seen: seq<Seen>, k: nat): seq<Seen>
    requires k < |seen|
  {
    seen[..k] + seen[k + 1..] + [seen[k]]
  }

  // ------------------------------------------------------------------- steps

  function Process(c: Config, s: State, e: Envelope): (State, Output) {
    var purged := s.(seen := Purge(c, s.seen, CollectorTime(e)));
    var prev := Lookup(s.quotes, KeyOf(e));
    if Raises(e) then (purged, Raised)
    else
      match Assess(c, prev, e)
      case Reject(rule) => (purged, Output([rule], None))
      case Accept(q) =>
        var id := IdentityOf(q);
        var k := Position(purged.seen, id);
        if k < |purged.seen| then
          (purged.(seen := MoveToEnd(purged.seen, k)), Output([DupStrongKey], None))
        else
          match Admit(c, prev, e, q)
          case Suppress(rules) => (purged, Output(rules, None))
          case Publish(warnings) =>
            var tick := TickOf(e, q, warnings);
            (State(s.quotes[q.key := QuoteOf(tick)],
                   Purge(c, purged.seen + [Seen(id, CollectorTime(e), q.key)], CollectorTime(e))),
             Output(warnings, Some(tick)))
  }

  predicate Of(k: Key, conn: nat, session: nat) {
    k.conn == conn && k.session == session
  }

  function Others(seen: seq<Seen>, conn: nat, session: nat): seq<Seen> {
    if seen == [] then []
    else
      var last := seen[|seen| - 1];
      Others(seen[..|seen| - 1], conn, session) + (if Of(last.key, conn, session) then [] else [last])
  }

  function Disconnect(s: State, conn: nat, session: nat): State {
    State(map k | k in s.quotes && !Of(k, conn, session) :: s.quotes[k],
          Others(s.seen, conn, session))
  }

  datatype Step = Receive(envelope: Envelope) | Drop(conn: nat, session: nat)

  const START := State(map[], [])

  function Move(c: Config, s: State, a: Step): State {
    match a
    case Receive(e) => Process(c, s, e).0
    case Drop(conn, session) => Disconnect(s, conn, session)
  }

  function TickFrom(c: Config, s: State, a: Step): Option<Tick> {
    match a
    case Receive(e) => (match Process(c, s, e).1 case Output(_, t) => t case Raised => None)
    case Drop(_, _) => None
  }

  function Run(c: Config, s: State, steps: seq<Step>): State
    decreases |steps|
  {
    if steps == [] then s else Run(c, Move(c, s, steps[0]), steps[1..])
  }

  function Listed(t: Option<Tick>): seq<Tick> {
    if t.Some? then [t.value] else []
  }

  /** The ticks a run publishes, in order. */
  function Ticks(c: Config, s: State, steps: seq<Step>): seq<Tick>
    decreases |steps|
  {
    if steps == [] then []
    else Listed(TickFrom(c, s, steps[0])) + Ticks(c, Move(c, s, steps[0]), steps[1..])
  }
}

module IcMarketsAdapterClass {
  import opened Wrappers
  import opened Instruments
  import opened AdapterModel
  import AL = AdapterLaws

  class IcMarketsAdapter {
    const config: Config
    var quotes: map<Key, Quote>
    var seen: seq<Seen>

    ghost function View(): State
      reads this
    {
      State(quotes, seen)
    }

    constructor (config: Config)
      ensures View() == START && this.config == config
    {
      this.config := config;
      quotes, seen := map[], [];
    }

    method PurgeSeen(now: int)
      modifies this`seen
      ensures seen == Purge(config, old(seen), now) && AL.Purged(config, old(seen), now, seen)
    {
      AL.PurgeIsExact(config, seen, now);
      var cutoff := now - config.cacheTtl;
      while seen != []
        invariant Unexpired(old(seen), cutoff) == Unexpired(seen, cutoff)
        decreases |seen|
      {
        if seen[0].seenAt >= cutoff {
          break;
        }
        seen := seen[1..];
      }
      while |seen| >= Limit(config)
        invariant Trim(Unexpired(old(seen), cutoff), Limit(config)) == Trim(seen, Limit(config))
        decreases |seen|
      {
        seen := seen[1..];
      }
    }

    method OnDisconnect(conn: nat, session: nat)
      modifies this
      ensures View() == Disconnect(old(View()), conn, session)
      ensures forall k :: k in quotes <==> k in old(quotes) && !(k.conn == conn && k.session == session)
      ensures forall k | k in quotes :: quotes[k] == old(quotes)[k]
      ensures forall x :: x in seen <==> x in old(seen) && !(x.key.conn == conn && x.key.session == session)
    {
      AL.OthersFacts(seen, conn, session);
      DropQuotes(conn, session);
      DropSeen(conn, session);
    }

    method DropQuotes(conn: nat, session: nat)
      modifies this`quotes
      ensures quotes == Disconnect(old(View()), conn, session).quotes
    {
      var todo := quotes.Keys;
      while todo != {}
        invariant todo <= quotes.Keys
        invariant forall k :: k in quotes <==> k in old(quotes) && (k in todo || !Of(k, conn, session))
        invariant forall k | k in quotes :: quotes[k] == old(quotes)[k]
        decreases |todo|
      {
        var k :| k in todo;
        todo := todo - {k};
        if Of(k, conn, session) {
          quotes := map j | j in quotes && j != k :: quotes[j];
        }
      }
    }

    method DropSeen(conn: nat, session: nat)
      modifies this`seen
      ensures seen == Others(old(seen), conn, session)
    {
      var entries := seen;
      var n := 0;
      while n < |entries|
        invariant n <= |entries|
        invariant seen == Others(entries[..n], conn, session) + entries[n..]
      {
        OthersStep(entries, n, conn, session);
        if Of(entries[n].key, conn, session) {
          var at := |seen| - (|entries| - n);
          seen := seen[..at] + seen[at + 1..];
        }
        n := n + 1;
      }
      assert entries[..n] == entries;
    }

    lemma OthersStep(entries: seq<Seen>, n: nat, conn: nat, session: nat)
      requires n < |entries|
      ensures var kept := Others(entries[..n], conn, session);
              var now := kept + entries[n..];
              var next := Others(entries[..n + 1], conn, session) + entries[n + 1..];
              && |now| - (|entries| - n) == |kept|
              && (Of(entries[n].key, conn, session) ==> now[..|kept|] + now[|kept| + 1..] == next)
              && (!Of(entries[n].key, conn, session) ==> now == next)
    {
      assert entries[..n + 1][..n] == entries[..n];
      assert entries[n..] == [entries[n]] + entries[n + 1..];
      var kept := Others(entries[..n], conn, session);
      assert (kept + entries[n..])[|kept| + 1..] == entries[n + 1..];
      assert kept + ([entries[n]] + entries[n + 1..]) == (kept + [entries[n]]) + entries[n + 1..];
    }

    method Process(e: Envelope) returns (output: Output)
      modifies this
      ensures View() == AdapterModel.Process(config, old(View()), e).0
      ensures output == AdapterModel.Process(config, old(View()), e).1
    {
      PurgeSeen(CollectorTime(e));
      if Raises(e) {
        return Raised;
      }
      var previous := Lookup(quotes, KeyOf(e));
      var verdict := Assess(config, previous, e);
      if verdict.Reject? {
        return Output([verdict.rule], None);
      }
      var q := verdict.quote;
      var dedup := IdentityOf(q);
      var at := Position(seen, dedup);
      if at < |seen| {
        seen := seen[..at] + seen[at + 1..] + [seen[at]];
        return Output([DupStrongKey], None);
      }
      var ruling := Admit(config, previous, e, q);
      if ruling.Suppress? {
        return Output(ruling.rules, None);
      }
      var tick := TickOf(e, q, ruling.warnings);
      seen := seen + [Seen(dedup, CollectorTime(e), q.key)];
      PurgeSeen(CollectorTime(e));
      quotes := quotes[q.key := Quote(q.bid, q.ask, e.receivedAt, q.orderTime, q.sequence)];
      return Output(ruling.warnings, Some(tick));
    }
  }
}

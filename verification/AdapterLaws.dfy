/** Laws of the adapter over every run of envelopes and disconnects. */
module AdapterLaws {
  import opened Wrappers
  import opened Instruments
  import opened AdapterModel

  // ------------------------------------------------------------ bounded cache

  lemma {:induction false} TrimFacts(seen: seq<Seen>, limit: nat)
    requires limit > 0
    ensures |Trim(seen, limit)| < limit && |Trim(seen, limit)| <= |seen|
    ensures Trim(seen, limit) == seen[|seen| - |Trim(seen, limit)|..]
  {
    if |seen| >= limit {
      TrimFacts(seen[1..], limit);
    }
  }

  lemma {:induction false} UnexpiredFacts(seen: seq<Seen>, cutoff: int)
    ensures |Unexpired(seen, cutoff)| <= |seen|
    ensures Unexpired(seen, cutoff) == seen[|seen| - |Unexpired(seen, cutoff)|..]
  {
    if seen != [] && seen[0].seenAt < cutoff {
      UnexpiredFacts(seen[1..], cutoff);
    }
  }

  lemma PurgeFacts(c: Config, seen: seq<Seen>, now: int)
    ensures |Purge(c, seen, now)| < Limit(c) && |Purge(c, seen, now)| <= |seen|
    ensures Purge(c, seen, now) == seen[|seen| - |Purge(c, seen, now)|..]
    ensures forall x | x in Purge(c, seen, now) :: x in seen
  {
    var young := Unexpired(seen, now - c.cacheTtl);
    UnexpiredFacts(seen, now - c.cacheTtl);
    TrimFacts(young, Limit(c));
    SuffixOfSuffix(seen, young, Trim(young, Limit(c)));
  }

  /** The entries before `dead` have expired, and the next one has not. */
  ghost predicate Expired(seen: seq<Seen>, cutoff: int, dead: nat) {
    && dead <= |seen| && (forall k | 0 <= k < dead :: seen[k].seenAt < cutoff)
    && (dead < |seen| ==> seen[dead].seenAt >= cutoff)
  }

  /** What a purge keeps: all but the leading entries that outlived the lifetime, and of those
      the last ones, one fewer than the cache is configured for. */
  ghost predicate Purged(c: Config, seen: seq<Seen>, now: int, kept: seq<Seen>) {
    exists dead: nat {:trigger Expired(seen, now - c.cacheTtl, dead)} ::
      && Expired(seen, now - c.cacheTtl, dead)
      && kept == seen[Max(dead, |seen| - (Max(1, c.cacheMax) - 1))..]
  }

  lemma {:induction false} UnexpiredExactly(seen: seq<Seen>, cutoff: int) returns (dead: nat)
    ensures Expired(seen, cutoff, dead) && Unexpired(seen, cutoff) == seen[dead..]
  {
    if seen == [] || seen[0].seenAt >= cutoff {
      dead := 0;
    } else {
      var rest := UnexpiredExactly(seen[1..], cutoff);
      dead := rest + 1;
      forall k | 0 <= k < dead ensures seen[k].seenAt < cutoff {
        assert k > 0 ==> seen[k] == seen[1..][k - 1];
      }
    }
  }

  lemma {:induction false} TrimExactly(seen: seq<Seen>, limit: nat)
    requires limit > 0
    ensures Trim(seen, limit) == seen[Max(0, |seen| - (limit - 1))..]
  {
    if |seen| >= limit {
      TrimExactly(seen[1..], limit);
    }
  }

  lemma PurgeIsExact(c: Config, seen: seq<Seen>, now: int)
    ensures Purged(c, seen, now, Purge(c, seen, now))
  {
    var dead := UnexpiredExactly(seen, now - c.cacheTtl);
    TrimExactly(seen[dead..], Limit(c));
    SliceOfSlice(seen, dead, Max(0, |seen| - dead - (Limit(c) - 1)));
  }

  lemma SliceOfSlice(seen: seq<Seen>, a: nat, b: nat)
    requires a + b <= |seen|
    ensures seen[a..][b..] == seen[a + b..]
  {
  }

  lemma PurgeIsSuffix(c: Config, seen: seq<Seen>, now: int)
    ensures var kept := Purge(c, seen, now); |kept| <= |seen| && kept == seen[|seen| - |kept|..]
  {
    PurgeFacts(c, seen, now);
  }

  lemma SuffixOfSuffix(a: seq<Seen>, b: seq<Seen>, c: seq<Seen>)
    requires |b| <= |a| && b == a[|a| - |b|..] && |c| <= |b| && c == b[|b| - |c|..]
    ensures c == a[|a| - |c|..]
    ensures forall x | x in c :: x in a
  {
    assert forall k | 0 <= k < |c| :: c[k] == a[|a| - |c| + k];
  }

  lemma {:induction false} OthersFacts(seen: seq<Seen>, conn: nat, session: nat)
    ensures |Others(seen, conn, session)| <= |seen|
    ensures forall x :: x in Others(seen, conn, session) <==> x in seen && !Of(x.key, conn, session)
  {
    if seen != [] {
      OthersFacts(seen[..|seen| - 1], conn, session);
      assert seen == seen[..|seen| - 1] + [seen[|seen| - 1]];
    }
  }

  lemma MoveToEndFacts(seen: seq<Seen>, k: nat)
    requires k < |seen|
    ensures |MoveToEnd(seen, k)| == |seen|
    ensures forall x :: x in MoveToEnd(seen, k) <==> x in seen
  {
    assert seen == seen[..k] + [seen[k]] + seen[k + 1..];
  }

  lemma MoveKeepsBound(c: Config, s: State, a: Step)
    requires |s.seen| < Limit(c)
    ensures |Move(c, s, a).seen| < Limit(c)
  {
    match a {
      case Drop(conn, session) => OthersFacts(s.seen, conn, session);
      case Receive(e) =>
        PurgeFacts(c, s.seen, CollectorTime(e));
        match Assess(c, Lookup(s.quotes, KeyOf(e)), e) {
          case Reject(_) =>
          case Accept(q) =>
            PurgeFacts(c, Purge(c, s.seen, CollectorTime(e)) + [Seen(IdentityOf(q), CollectorTime(e), q.key)],
                       CollectorTime(e));
        }
    }
  }

  lemma {:induction false} RunKeepsBound(c: Config, s: State, steps: seq<Step>)
    requires |s.seen| < Limit(c)
    ensures |Run(c, s, steps).seen| < Limit(c)
    decreases |steps|
  {
    if steps != [] {
      MoveKeepsBound(c, s, steps[0]);
      RunKeepsBound(c, Move(c, s, steps[0]), steps[1..]);
    }
  }

  /** After every call the cache holds at most one entry less than it is configured for. */
  lemma CacheIsBounded(c: Config, steps: seq<Step>)
    ensures |Run(c, START, steps).seen| <= Max(1, c.cacheMax) - 1
  {
    RunKeepsBound(c, START, steps);
  }

  // --------------------------------------------- the cache-free, per-key machine

  /** The adapter without its cache. */
  function Bare(c: Config, m: map<Key, Quote>, a: Step): (map<Key, Quote>, Option<Tick>) {
    match a
    case Drop(conn, session) => (map k | k in m && !Of(k, conn, session) :: m[k], None)
    case Receive(e) =>
      var prev := Lookup(m, KeyOf(e));
      if Raises(e) then (m, None)
      else
        match Assess(c, prev, e)
        case Reject(_) => (m, None)
        case Accept(q) =>
          match Admit(c, prev, e, q)
          case Suppress(_) => (m, None)
          case Publish(warnings) =>
            var t := TickOf(e, q, warnings);
            (m[q.key := QuoteOf(t)], Some(t))
  }

  function BareTicks(c: Config, m: map<Key, Quote>, steps: seq<Step>): seq<Tick>
    decreases |steps|
  {
    if steps == [] then []
    else Listed(Bare(c, m, steps[0]).1) + BareTicks(c, Bare(c, m, steps[0]).0, steps[1..])
  }

  /** Envelopes that carry a sequence: every display envelope the collector builds, and
      provider envelopes that are numbered. A display envelope without one is rejected. */
  predicate Ordered(a: Step) {
    a.Receive? && a.envelope.payload.Object? ==> Visible(a.envelope) || SequenceOf(a.envelope).Some?
  }

  /** A cached identity with sequence s implies a live quote of its key with at least s. */
  ghost predicate Covered(s: State, x: Seen) {
    && x.key == x.id.key && x.id.sequence.Some?
    && x.key in s.quotes && s.quotes[x.key].sequence.Some?
    && x.id.sequence.value <= s.quotes[x.key].sequence.value
  }

  ghost predicate AllCovered(s: State) {
    forall x | x in s.seen :: Covered(s, x)
  }

  lemma AcceptedFacts(c: Config, prev: Option<Quote>, e: Envelope)
    requires Assess(c, prev, e).Accept?
    ensures var q := Assess(c, prev, e).quote;
            && e.payload.Object? && KeyOf(e) == Some(q.key) && q.sequence == SequenceOf(e)
            && (Visible(e) ==> q.sequence.Some?)
            && q.bid.value > 0.0
            && SpecOf(q.key.instrument).minPrice <= q.bid.value <= q.ask.value
            && q.ask.value <= SpecOf(q.key.instrument).maxPrice
  {
  }

  lemma PublishedFacts(c: Config, prev: Option<Quote>, e: Envelope, q: Candidate)
    requires Admit(c, prev, e, q).Publish?
    ensures prev.Some? && q.sequence.Some? && prev.value.sequence.Some? ==>
              q.sequence.value > prev.value.sequence.value
    ensures prev.Some? && !(Visible(e) && q.sequence.Some?) ==> q.orderTime >= prev.value.orderTime
  {
  }

  lemma OrderedStepIgnoresCache(c: Config, s: State, a: Step)
    requires AllCovered(s) && Ordered(a)
    ensures Move(c, s, a).quotes == Bare(c, s.quotes, a).0
    ensures TickFrom(c, s, a) == Bare(c, s.quotes, a).1
  {
    if a.Receive? && !Raises(a.envelope) {
      var e := a.envelope;
      var prev := Lookup(s.quotes, KeyOf(e));
      if Assess(c, prev, e).Accept? {
        AcceptedFacts(c, prev, e);
        var q := Assess(c, prev, e).quote;
        var seen := Purge(c, s.seen, CollectorTime(e));
        PurgeFacts(c, s.seen, CollectorTime(e));
        var k := Position(seen, IdentityOf(q));
        if k < |seen| {
          assert seen[k] in s.seen && Covered(s, seen[k]);
        }
      }
    }
  }

  lemma OrderedStepKeepsCovered(c: Config, s: State, a: Step)
    requires AllCovered(s) && Ordered(a)
    ensures AllCovered(Move(c, s, a))
  {
    var s1 := Move(c, s, a);
    match a {
      case Drop(conn, session) => OthersFacts(s.seen, conn, session);
      case Receive(e) =>
        PurgeFacts(c, s.seen, CollectorTime(e));
        var prev := Lookup(s.quotes, KeyOf(e));
        var purged := Purge(c, s.seen, CollectorTime(e));
        if !Raises(e) && Assess(c, prev, e).Accept? {
          AcceptedFacts(c, prev, e);
          var q := Assess(c, prev, e).quote;
          var k := Position(purged, IdentityOf(q));
          if k < |purged| {
            MoveToEndFacts(purged, k);
          } else if Admit(c, prev, e, q).Publish? {
            PublishedFacts(c, prev, e, q);
            PublishKeepsCovered(c, s, e, q, Admit(c, prev, e, q).warnings);
          }
        }
    }
  }

  lemma PublishKeepsCovered(c: Config, s: State, e: Envelope, q: Candidate, warnings: seq<Rule>)
    requires AllCovered(s) && q.sequence.Some?
    requires q.key in s.quotes && s.quotes[q.key].sequence.Some? ==> s.quotes[q.key].sequence.value < q.sequence.value
    ensures var y := Seen(IdentityOf(q), CollectorTime(e), q.key);
            AllCovered(State(s.quotes[q.key := QuoteOf(TickOf(e, q, warnings))],
                             Purge(c, Purge(c, s.seen, CollectorTime(e)) + [y], CollectorTime(e))))
  {
    var now := CollectorTime(e);
    var purged := Purge(c, s.seen, now);
    var y := Seen(IdentityOf(q), now, q.key);
    PurgeFacts(c, s.seen, now);
    PurgeFacts(c, purged + [y], now);
    var s1 := State(s.quotes[q.key := QuoteOf(TickOf(e, q, warnings))], Purge(c, purged + [y], now));
    forall x | x in s1.seen ensures Covered(s1, x) {
      if x in purged {
        assert Covered(s, x);
      }
    }
  }

  /** On streams that carry sequences the cache is invisible: the ticks are those of the machine without it. */
  lemma {:induction false} OrderedRunIgnoresCache(c: Config, s: State, steps: seq<Step>)
    requires AllCovered(s) && forall a | a in steps :: Ordered(a)
    ensures Ticks(c, s, steps) == BareTicks(c, s.quotes, steps)
    decreases |steps|
  {
    if steps != [] {
      OrderedStepIgnoresCache(c, s, steps[0]);
      OrderedStepKeepsCovered(c, s, steps[0]);
      OrderedRunIgnoresCache(c, Move(c, s, steps[0]), steps[1..]);
    }
  }

  lemma DecisionsIgnoreCacheSettings(c: Config, prev: Option<Quote>, e: Envelope, q: Candidate, size: nat, ttl: int)
    ensures Assess(c.(cacheMax := size, cacheTtl := ttl), prev, e) == Assess(c, prev, e)
    ensures Admit(c.(cacheMax := size, cacheTtl := ttl), prev, e, q) == Admit(c, prev, e, q)
  {
    var c1 := c.(cacheMax := size, cacheTtl := ttl);
    assert e.payload.Object? ==> SidesOf(c1, prev, e) == SidesOf(c, prev, e);
    assert OrderRuling(c1, prev, e, q) == OrderRuling(c, prev, e, q);
    assert WideSpread(c1, q) == WideSpread(c, q);
  }

  const NOBODY := Candidate(Key(0, 0, EURUSD), Decimal(0.0, 0), Decimal(0.0, 0), None, 0, ProviderTime, true, [])

  lemma BareStepIgnoresCacheSettings(c: Config, m: map<Key, Quote>, a: Step, size: nat, ttl: int)
    ensures Bare(c.(cacheMax := size, cacheTtl := ttl), m, a) == Bare(c, m, a)
  {
    if a.Receive? {
      var prev := Lookup(m, KeyOf(a.envelope));
      var q := match Assess(c, prev, a.envelope)
        case Accept(q) => q
        case Reject(_) => NOBODY;
      DecisionsIgnoreCacheSettings(c, prev, a.envelope, q, size, ttl);
    }
  }

  lemma {:induction false} BareIgnoresCacheSettings(c: Config, m: map<Key, Quote>, steps: seq<Step>, size: nat, ttl: int)
    ensures BareTicks(c.(cacheMax := size, cacheTtl := ttl), m, steps) == BareTicks(c, m, steps)
    decreases |steps|
  {
    if steps != [] {
      BareStepIgnoresCacheSettings(c, m, steps[0], size, ttl);
      BareIgnoresCacheSettings(c, Bare(c, m, steps[0]).0, steps[1..], size, ttl);
    }
  }

  /** Every cache size and lifetime publishes the same ticks. */
  lemma CacheSettingsAreInvisible(c: Config, steps: seq<Step>, size: nat, ttl: int)
    requires forall a | a in steps :: Ordered(a)
    ensures Ticks(c.(cacheMax := size, cacheTtl := ttl), START, steps) == Ticks(c, START, steps)
  {
    OrderedRunIgnoresCache(c, START, steps);
    OrderedRunIgnoresCache(c.(cacheMax := size, cacheTtl := ttl), START, steps);
    BareIgnoresCacheSettings(c, map[], steps, size, ttl);
  }

  /** Does this step concern key k? */
  predicate Concerns(k: Key, a: Step) {
    match a
    case Receive(e) => KeyOf(e) == Some(k)
    case Drop(conn, session) => Of(k, conn, session)
  }

  function Own(k: Key, steps: seq<Step>): seq<Step> {
    if steps == [] then []
    else (if Concerns(k, steps[0]) then [steps[0]] else []) + Own(k, steps[1..])
  }

  function TicksOf(k: Key, ticks: seq<Tick>): seq<Tick> {
    if ticks == [] then []
    else (if ticks[0].key == k then [ticks[0]] else []) + TicksOf(k, ticks[1..])
  }

  lemma {:induction false} TicksOfConcat(k: Key, a: seq<Tick>, b: seq<Tick>)
    ensures TicksOf(k, a + b) == TicksOf(k, a) + TicksOf(k, b)
  {
    if a == [] {
      assert a + b == b;
    } else {
      assert (a + b)[0] == a[0] && (a + b)[1..] == a[1..] + b;
      TicksOfConcat(k, a[1..], b);
    }
  }

  lemma BareIsLocal(c: Config, m1: map<Key, Quote>, m2: map<Key, Quote>, k: Key, a: Step)
    requires Lookup(m1, Some(k)) == Lookup(m2, Some(k))
    ensures Concerns(k, a) ==>
              && Lookup(Bare(c, m1, a).0, Some(k)) == Lookup(Bare(c, m2, a).0, Some(k))
              && Bare(c, m1, a).1 == Bare(c, m2, a).1
              && TicksOf(k, Listed(Bare(c, m1, a).1)) == Listed(Bare(c, m1, a).1)
    ensures !Concerns(k, a) ==>
              && Lookup(Bare(c, m1, a).0, Some(k)) == Lookup(m1, Some(k))
              && TicksOf(k, Listed(Bare(c, m1, a).1)) == []
  {
    if a.Receive? && !Raises(a.envelope) {
      var prev := Lookup(m1, KeyOf(a.envelope));
      if Assess(c, prev, a.envelope).Accept? {
        AcceptedFacts(c, prev, a.envelope);
      }
    }
  }

  lemma {:induction false} BareTicksAreLocal(
      c: Config, m1: map<Key, Quote>, m2: map<Key, Quote>, k: Key, steps: seq<Step>)
    requires Lookup(m1, Some(k)) == Lookup(m2, Some(k))
    ensures TicksOf(k, BareTicks(c, m1, steps)) == BareTicks(c, m2, Own(k, steps))
    decreases |steps|
  {
    if steps != [] {
      var a := steps[0];
      BareIsLocal(c, m1, m2, k, a);
      TicksOfConcat(k, Listed(Bare(c, m1, a).1), BareTicks(c, Bare(c, m1, a).0, steps[1..]));
      if Concerns(k, a) {
        BareTicksAreLocal(c, Bare(c, m1, a).0, Bare(c, m2, a).0, k, steps[1..]);
        assert Own(k, steps)[0] == a && Own(k, steps)[1..] == Own(k, steps[1..]);
      } else {
        BareTicksAreLocal(c, Bare(c, m1, a).0, m2, k, steps[1..]);
        assert Own(k, steps) == Own(k, steps[1..]);
      }
    }
  }

  lemma {:induction false} OwnIsSelection(k: Key, steps: seq<Step>)
    ensures forall a | a in Own(k, steps) :: a in steps
  {
    if steps != [] {
      OwnIsSelection(k, steps[1..]);
    }
  }

  /** Under any interleaving, what is published for one key depends only on that key's own
      envelopes and disconnects. */
  lemma KeysDoNotInterfere(c: Config, steps: seq<Step>, k: Key)
    requires forall a | a in steps :: Ordered(a)
    ensures TicksOf(k, Ticks(c, START, steps)) == Ticks(c, START, Own(k, steps))
  {
    OwnIsSelection(k, steps);
    OrderedRunIgnoresCache(c, START, steps);
    OrderedRunIgnoresCache(c, START, Own(k, steps));
    BareTicksAreLocal(c, map[], map[], k, steps);
  }

  // ------------------------------------------------------------ LRU retention

  ghost predicate DistinctSeen(seen: seq<Seen>) {
    forall j, k | 0 <= j < k < |seen| :: seen[j].id != seen[k].id
  }

  function IdsFrom(seen: seq<Seen>, k: nat): set<Identity>
    requires k <= |seen|
  {
    set j | k <= j < |seen| :: seen[j].id
  }

  /** The entry is cached and every entry younger than it is one of `others`. */
  ghost predicate Holds(seen: seq<Seen>, x: Seen, others: set<Identity>) {
    exists k :: 0 <= k < |seen| && seen[k] == x && IdsFrom(seen, k + 1) <= others
  }

  lemma {:induction false} DistinctCount(seen: seq<Seen>, k: nat)
    requires DistinctSeen(seen) && k <= |seen|
    ensures |IdsFrom(seen, k)| == |seen| - k
    decreases |seen| - k
  {
    if k < |seen| {
      DistinctCount(seen, k + 1);
      assert IdsFrom(seen, k) == {seen[k].id} + IdsFrom(seen, k + 1);
    } else {
      assert IdsFrom(seen, k) == {};
    }
  }

  lemma SuffixHolds(seen: seq<Seen>, n: nat, k: nat, x: Seen, others: set<Identity>)
    requires DistinctSeen(seen) && n <= k < |seen| && seen[k] == x && IdsFrom(seen, k + 1) <= others
    ensures DistinctSeen(seen[n..]) && Holds(seen[n..], x, others)
  {
    var t := seen[n..];
    var from := k - n + 1;
    forall id | id in IdsFrom(t, from) ensures id in others {
      var j :| from <= j < |t| && t[j].id == id;
      assert seen[j + n].id in IdsFrom(seen, k + 1);
    }
    assert t[k - n] == x;
  }

  /** Expiry stops at an unexpired entry. */
  lemma {:induction false} UnexpiredKeeps(seen: seq<Seen>, k: nat, cutoff: int)
    requires k < |seen| && seen[k].seenAt >= cutoff
    ensures |seen| - |Unexpired(seen, cutoff)| <= k
  {
    if seen[0].seenAt < cutoff {
      UnexpiredKeeps(seen[1..], k - 1, cutoff);
    }
  }

  /** Trimming never reaches an entry with fewer than limit - 1 younger ones. */
  lemma {:induction false} TrimKeeps(seen: seq<Seen>, k: nat, limit: nat)
    requires limit > 0 && k < |seen| && |seen| - k - 1 < limit - 1
    ensures |seen| - |Trim(seen, limit)| <= k
  {
    if |seen| >= limit {
      TrimKeeps(seen[1..], k - 1, limit);
    }
  }

  lemma UnexpiredHolds(seen: seq<Seen>, cutoff: int, x: Seen, others: set<Identity>)
    requires DistinctSeen(seen) && Holds(seen, x, others) && x.seenAt >= cutoff
    ensures DistinctSeen(Unexpired(seen, cutoff)) && Holds(Unexpired(seen, cutoff), x, others)
  {
    var k :| 0 <= k < |seen| && seen[k] == x && IdsFrom(seen, k + 1) <= others;
    UnexpiredKeeps(seen, k, cutoff);
    UnexpiredFacts(seen, cutoff);
    SuffixHolds(seen, |seen| - |Unexpired(seen, cutoff)|, k, x, others);
  }

  lemma TrimHolds(seen: seq<Seen>, limit: nat, x: Seen, others: set<Identity>)
    requires limit > 0 && DistinctSeen(seen) && Holds(seen, x, others) && |others| < limit - 1
    ensures DistinctSeen(Trim(seen, limit)) && Holds(Trim(seen, limit), x, others)
  {
    var k :| 0 <= k < |seen| && seen[k] == x && IdsFrom(seen, k + 1) <= others;
    DistinctCount(seen, k + 1);
    SubsetSize(IdsFrom(seen, k + 1), others);
    TrimKeeps(seen, k, limit);
    TrimFacts(seen, limit);
    SuffixHolds(seen, |seen| - |Trim(seen, limit)|, k, x, others);
  }

  lemma PurgeHolds(c: Config, seen: seq<Seen>, now: int, x: Seen, others: set<Identity>)
    requires DistinctSeen(seen) && Holds(seen, x, others)
    requires |others| < Limit(c) - 1 && now <= x.seenAt + c.cacheTtl
    ensures DistinctSeen(Purge(c, seen, now)) && Holds(Purge(c, seen, now), x, others)
  {
    UnexpiredHolds(seen, now - c.cacheTtl, x, others);
    TrimHolds(Unexpired(seen, now - c.cacheTtl), Limit(c), x, others);
  }

  /** The identity that a step inserts into the cache or moves to its young end. */
  function Touched(c: Config, s: State, a: Step): set<Identity> {
    match a
    case Drop(_, _) => {}
    case Receive(e) =>
      var prev := Lookup(s.quotes, KeyOf(e));
      if Raises(e) then {}
      else
        match Assess(c, prev, e)
        case Reject(_) => {}
        case Accept(q) =>
          if Position(Purge(c, s.seen, CollectorTime(e)), IdentityOf(q)) < |Purge(c, s.seen, CollectorTime(e))|
             || Admit(c, prev, e, q).Publish?
          then {IdentityOf(q)} else {}
  }

  function TouchedBy(c: Config, s: State, steps: seq<Step>): set<Identity>
    decreases |steps|
  {
    if steps == [] then {}
    else Touched(c, s, steps[0]) + TouchedBy(c, Move(c, s, steps[0]), steps[1..])
  }

  lemma MoveToEndHolds(seen: seq<Seen>, n: nat, x: Seen, others: set<Identity>)
    requires DistinctSeen(seen) && n < |seen| && Holds(seen, x, others)
    ensures DistinctSeen(MoveToEnd(seen, n))
    ensures Holds(MoveToEnd(seen, n), x, others + ({seen[n].id} - {x.id}))
  {
    var t := MoveToEnd(seen, n);
    var k :| 0 <= k < |seen| && seen[k] == x && IdsFrom(seen, k + 1) <= others;
    assert forall j | 0 <= j < n :: t[j] == seen[j];
    assert forall j | n <= j < |seen| - 1 :: t[j] == seen[j + 1];
    assert t[|t| - 1] == seen[n];
    var at := if k == n then |t| - 1 else if k < n then k else k - 1;
    assert t[at] == x;
    forall id | id in IdsFrom(t, at + 1) ensures id in others + ({seen[n].id} - {x.id}) {
      var j :| at + 1 <= j < |t| && t[j].id == id;
      if j < |t| - 1 {
        var i := if j < n then j else j + 1;
        assert seen[i].id == id && i > k;
      }
    }
  }

  lemma AppendHolds(seen: seq<Seen>, y: Seen, x: Seen, others: set<Identity>)
    requires DistinctSeen(seen) && Holds(seen, x, others)
    requires Position(seen, y.id) == |seen|
    ensures DistinctSeen(seen + [y]) && y.id != x.id && Holds(seen + [y], x, others + {y.id})
  {
    var t := seen + [y];
    var k :| 0 <= k < |seen| && seen[k] == x && IdsFrom(seen, k + 1) <= others;
    assert t[k] == x;
    forall id | id in IdsFrom(t, k + 1) ensures id in others + {y.id} {
      var j :| k + 1 <= j < |t| && t[j].id == id;
      assert j < |seen| ==> seen[j].id in IdsFrom(seen, k + 1);
    }
  }

  /** Appending an entry that is one of `others` keeps what is held. */
  lemma GrownHolds(seen: seq<Seen>, more: seq<Seen>, x: Seen, others: set<Identity>)
    requires Holds(seen, x, others) && |more| <= 1 && forall y | y in more :: y.id in others
    ensures Holds(seen + more, x, others)
  {
    var k :| 0 <= k < |seen| && seen[k] == x && IdsFrom(seen, k + 1) <= others;
    var f, from := seen + more, k + 1;
    assert f[k] == x;
    forall id | id in IdsFrom(f, from) ensures id in others {
      var j :| from <= j < |f| && f[j].id == id;
      if j < |seen| {
        assert seen[j].id in IdsFrom(seen, from);
      } else {
        assert f[j] in more;
      }
    }
  }

  /** What holds before a younger last entry holds without it, and that entry is one of `others`. */
  lemma ShrunkHolds(seen: seq<Seen>, k: nat, x: Seen, others: set<Identity>)
    requires k + 1 < |seen| && seen[k] == x && IdsFrom(seen, k + 1) <= others
    ensures Holds(seen[..|seen| - 1], x, others) && seen[|seen| - 1].id in others
  {
    var t, from := seen[..|seen| - 1], k + 1;
    assert t[k] == x && seen[|seen| - 1].id in IdsFrom(seen, from);
    forall id | id in IdsFrom(t, from) ensures id in others {
      var j :| from <= j < |t| && t[j].id == id;
      assert seen[j].id in IdsFrom(seen, from);
    }
  }

  lemma LastHolds(seen: seq<Seen>, x: Seen, others: set<Identity>)
    ensures Holds(seen + [x], x, others)
  {
    var f, from := seen + [x], |seen| + 1;
    assert f[|seen|] == x && IdsFrom(f, from) == {};
  }

  lemma {:induction false} OthersHolds(seen: seq<Seen>, conn: nat, session: nat, x: Seen, others: set<Identity>)
    requires Holds(seen, x, others) && !Of(x.key, conn, session)
    ensures Holds(Others(seen, conn, session), x, others)
  {
    var k :| 0 <= k < |seen| && seen[k] == x && IdsFrom(seen, k + 1) <= others;
    var t, last := seen[..|seen| - 1], seen[|seen| - 1];
    var r := Others(t, conn, session);
    if k == |seen| - 1 {
      LastHolds(r, x, others);
    } else {
      ShrunkHolds(seen, k, x, others);
      OthersHolds(t, conn, session, x, others);
      GrownHolds(r, if Of(last.key, conn, session) then [] else [last], x, others);
    }
  }

  lemma {:induction false} OthersDistinct(seen: seq<Seen>, conn: nat, session: nat)
    requires DistinctSeen(seen)
    ensures DistinctSeen(Others(seen, conn, session))
  {
    if seen != [] {
      var t := seen[..|seen| - 1];
      OthersDistinct(t, conn, session);
      OthersFacts(t, conn, session);
      forall k | 0 <= k < |Others(t, conn, session)|
        ensures Others(t, conn, session)[k].id != seen[|seen| - 1].id
      {
        assert Others(t, conn, session)[k] in t;
      }
    }
  }

  /** Steps that neither come too late for the entry nor disconnect its session. */
  ghost predicate Spares(c: Config, x: Seen, a: Step) {
    match a
    case Receive(e) => CollectorTime(e) <= x.seenAt + c.cacheTtl
    case Drop(conn, session) => !Of(x.key, conn, session)
  }

  lemma ReceiveHolds(c: Config, s: State, e: Envelope, x: Seen, others: set<Identity>)
    requires DistinctSeen(s.seen) && Holds(s.seen, x, others) && Spares(c, x, Receive(e))
    requires |others + (Touched(c, s, Receive(e)) - {x.id})| < Limit(c) - 1
    ensures var s1 := Move(c, s, Receive(e));
            DistinctSeen(s1.seen) && Holds(s1.seen, x, others + (Touched(c, s, Receive(e)) - {x.id}))
  {
    var now := CollectorTime(e);
    var more := others + (Touched(c, s, Receive(e)) - {x.id});
    SubsetSize(others, more);
    PurgeHolds(c, s.seen, now, x, others);
    WidenHolds(Purge(c, s.seen, now), x, others, more);
    var prev := Lookup(s.quotes, KeyOf(e));
    var purged := Purge(c, s.seen, now);
    if !Raises(e) && Assess(c, prev, e).Accept? {
      var q := Assess(c, prev, e).quote;
      var k := Position(purged, IdentityOf(q));
      if k < |purged| {
        MoveToEndHolds(purged, k, x, others);
      } else if Admit(c, prev, e, q).Publish? {
        var y := Seen(IdentityOf(q), now, q.key);
        AppendHolds(purged, y, x, others);
        assert more == others + {y.id};
        PurgeHolds(c, purged + [y], now, x, more);
      }
    }
  }

  lemma WidenHolds(seen: seq<Seen>, x: Seen, others: set<Identity>, more: set<Identity>)
    requires Holds(seen, x, others) && others <= more
    ensures Holds(seen, x, more)
  {
    var k :| 0 <= k < |seen| && seen[k] == x && IdsFrom(seen, k + 1) <= others;
    assert IdsFrom(seen, k + 1) <= more;
  }

  lemma MoveHolds(c: Config, s: State, a: Step, x: Seen, others: set<Identity>)
    requires DistinctSeen(s.seen) && Holds(s.seen, x, others) && Spares(c, x, a)
    requires |others + (Touched(c, s, a) - {x.id})| < Limit(c) - 1
    ensures var s1 := Move(c, s, a);
            DistinctSeen(s1.seen) && Holds(s1.seen, x, others + (Touched(c, s, a) - {x.id}))
  {
    match a {
      case Receive(e) => ReceiveHolds(c, s, e, x, others);
      case Drop(conn, session) =>
        OthersDistinct(s.seen, conn, session);
        OthersHolds(s.seen, conn, session, x, others);
        assert others + (Touched(c, s, a) - {x.id}) == others;
    }
  }

  lemma TouchedUnfolds(c: Config, s: State, steps: seq<Step>, x: Seen, others: set<Identity>)
    requires steps != []
    ensures var all := others + (TouchedBy(c, s, steps) - {x.id});
            var next := others + (Touched(c, s, steps[0]) - {x.id});
            && next <= all && |next| <= |all|
            && next + (TouchedBy(c, Move(c, s, steps[0]), steps[1..]) - {x.id}) == all
  {
    var first, later := Touched(c, s, steps[0]), TouchedBy(c, Move(c, s, steps[0]), steps[1..]);
    assert TouchedBy(c, s, steps) == first + later;
    SubsetSize(others + (first - {x.id}), others + (first + later - {x.id}));
  }

  lemma {:induction false} RunHolds(c: Config, s: State, steps: seq<Step>, x: Seen, others: set<Identity>)
    requires DistinctSeen(s.seen) && Holds(s.seen, x, others)
    requires forall a | a in steps :: Spares(c, x, a)
    requires |others + (TouchedBy(c, s, steps) - {x.id})| < Limit(c) - 1
    ensures var s1 := Run(c, s, steps);
            DistinctSeen(s1.seen) && Holds(s1.seen, x, others + (TouchedBy(c, s, steps) - {x.id}))
    decreases |steps|
  {
    if steps == [] {
      assert others + (TouchedBy(c, s, []) - {x.id}) == others;
    } else {
      var a := steps[0];
      var s1 := Move(c, s, a);
      var next := others + (Touched(c, s, a) - {x.id});
      TouchedUnfolds(c, s, steps, x, others);
      MoveHolds(c, s, a, x, others);
      RunHolds(c, s1, steps[1..], x, next);
    }
  }

  lemma {:induction false} RunStaysDistinct(c: Config, s: State, steps: seq<Step>)
    requires DistinctSeen(s.seen)
    ensures DistinctSeen(Run(c, s, steps).seen)
    decreases |steps|
  {
    if steps != [] {
      MoveStaysDistinct(c, s, steps[0]);
      RunStaysDistinct(c, Move(c, s, steps[0]), steps[1..]);
    }
  }

  lemma PurgeDistinct(c: Config, seen: seq<Seen>, now: int)
    requires DistinctSeen(seen)
    ensures DistinctSeen(Purge(c, seen, now))
  {
    PurgeFacts(c, seen, now);
  }

  lemma MoveStaysDistinct(c: Config, s: State, a: Step)
    requires DistinctSeen(s.seen)
    ensures DistinctSeen(Move(c, s, a).seen)
  {
    match a {
      case Drop(conn, session) => OthersDistinct(s.seen, conn, session);
      case Receive(e) =>
        var now := CollectorTime(e);
        var purged := Purge(c, s.seen, now);
        PurgeDistinct(c, s.seen, now);
        var prev := Lookup(s.quotes, KeyOf(e));
        if !Raises(e) && Assess(c, prev, e).Accept? {
          var q := Assess(c, prev, e).quote;
          var k := Position(purged, IdentityOf(q));
          if k < |purged| {
            assert Holds(purged, purged[k], IdsFrom(purged, k + 1));
            MoveToEndHolds(purged, k, purged[k], IdsFrom(purged, k + 1));
          } else {
            PurgeDistinct(c, purged + [Seen(IdentityOf(q), now, q.key)], now);
          }
        }
    }
  }

  /** What an envelope would be identified as in this state. */
  function IdentityIn(c: Config, s: State, e: Envelope): Option<Identity> {
    match Assess(c, Lookup(s.quotes, KeyOf(e)), e)
    case Reject(_) => None
    case Accept(q) => Some(IdentityOf(q))
  }

  /** The entry that a step inserted or moved is the youngest one afterwards. */
  lemma TouchedIsYoungest(c: Config, s: State, e: Envelope, x: Seen)
    requires DistinctSeen(s.seen) && Touched(c, s, Receive(e)) == {x.id} && x in Move(c, s, Receive(e)).seen
    ensures DistinctSeen(Move(c, s, Receive(e)).seen) && Holds(Move(c, s, Receive(e)).seen, x, {})
  {
    MoveStaysDistinct(c, s, Receive(e));
    TouchShows(c, s, e, x.id);
    TouchEnds(Purge(c, s.seen, CollectorTime(e)), Move(c, s, Receive(e)).seen, x);
  }

  lemma TouchEnds(purged: seq<Seen>, seen: seq<Seen>, x: Seen)
    requires DistinctSeen(seen) && x in seen && TouchedLast(purged, seen, x.id)
    ensures Holds(seen, x, {})
  {
    var k := Position(purged, x.id);
    if k < |purged| {
      YoungestHolds(purged[..k] + purged[k + 1..], purged[k], seen, x);
    } else {
      SuffixEnds(purged, seen, x);
    }
  }

  ghost predicate TouchedLast(purged: seq<Seen>, seen: seq<Seen>, id: Identity) {
    var k := Position(purged, id);
    if k < |purged| then seen == MoveToEnd(purged, k)
    else exists y: Seen :: y.id == id && EndsWith(purged, seen, y)
  }

  ghost predicate EndsWith(older: seq<Seen>, seen: seq<Seen>, y: Seen) {
    |seen| <= |older| + 1 && seen == (older + [y])[|older| + 1 - |seen|..]
  }

  /** A touched identity was cached and moved to the end, or is new and appended. */
  lemma TouchShows(c: Config, s: State, e: Envelope, id: Identity)
    requires Touched(c, s, Receive(e)) == {id}
    ensures TouchedLast(Purge(c, s.seen, CollectorTime(e)), Move(c, s, Receive(e)).seen, id)
  {
    TouchIdentifies(c, s, e, id);
    var q := Assess(c, Lookup(s.quotes, KeyOf(e)), e).quote;
    var purged := Purge(c, s.seen, CollectorTime(e));
    if Position(purged, id) == |purged| {
      var y := Seen(id, CollectorTime(e), q.key);
      PurgeEndsWith(c, purged, y, CollectorTime(e));
      NewIsLast(purged, Move(c, s, Receive(e)).seen, y);
    }
  }

  lemma TouchIdentifies(c: Config, s: State, e: Envelope, id: Identity)
    requires Touched(c, s, Receive(e)) == {id}
    ensures var prev, purged := Lookup(s.quotes, KeyOf(e)), Purge(c, s.seen, CollectorTime(e));
            && !Raises(e) && Assess(c, prev, e).Accept? && IdentityOf(Assess(c, prev, e).quote) == id
            && (Position(purged, id) == |purged| ==> Admit(c, prev, e, Assess(c, prev, e).quote).Publish?)
  {
    assert id in Touched(c, s, Receive(e));
  }

  lemma PurgeEndsWith(c: Config, older: seq<Seen>, y: Seen, now: int)
    ensures EndsWith(older, Purge(c, older + [y], now), y)
  {
    var grown := older + [y];
    PurgeIsSuffix(c, grown, now);
    SuffixEndsWith(older, y, grown, Purge(c, grown, now));
  }

  lemma SuffixEndsWith(older: seq<Seen>, y: Seen, grown: seq<Seen>, seen: seq<Seen>)
    requires grown == older + [y] && |seen| <= |grown| && seen == grown[|grown| - |seen|..]
    ensures EndsWith(older, seen, y)
  {
  }

  lemma NewIsLast(purged: seq<Seen>, seen: seq<Seen>, y: Seen)
    requires Position(purged, y.id) == |purged| && EndsWith(purged, seen, y)
    ensures TouchedLast(purged, seen, y.id)
  {
  }

  lemma SuffixEnds(older: seq<Seen>, seen: seq<Seen>, x: Seen)
    requires DistinctSeen(seen) && x in seen
    requires exists y: Seen :: y.id == x.id && EndsWith(older, seen, y)
    ensures Holds(seen, x, {})
  {
    var y: Seen :| y.id == x.id && EndsWith(older, seen, y);
    assert seen == older[|older| + 1 - |seen|..] + [y];
    YoungestHolds(older[|older| + 1 - |seen|..], y, seen, x);
  }

  lemma YoungestHolds(older: seq<Seen>, y: Seen, seen: seq<Seen>, x: Seen)
    requires seen == older + [y] && DistinctSeen(seen) && x in seen && x.id == y.id
    ensures Holds(seen, x, {})
  {
    LastHolds(older, y, {});
    var k :| 0 <= k < |seen| && seen[k] == x;
    assert seen[|older|] == y;
    assert k == |older|;
  }

  /** A published quote is cached, unless the cache is set to keep nothing. */
  lemma PublishedIsCached(c: Config, s: State, e: Envelope)
    requires TickFrom(c, s, Receive(e)).Some? && c.cacheTtl >= 0 && Limit(c) >= 2
    ensures var id := IdentityIn(c, s, e);
            && id.Some? && Touched(c, s, Receive(e)) == {id.value}
            && Seen(id.value, CollectorTime(e), id.value.key) in Move(c, s, Receive(e)).seen
  {
    var now := CollectorTime(e);
    var id := IdentityIn(c, s, e).value;
    YoungestSurvives(c, Purge(c, s.seen, now), Seen(id, now, id.key), now);
    assert Position(Purge(c, s.seen, now), id) == |Purge(c, s.seen, now)|;
  }

  lemma YoungestSurvives(c: Config, older: seq<Seen>, y: Seen, now: int)
    requires y.seenAt == now && c.cacheTtl >= 0 && Limit(c) >= 2
    ensures y in Purge(c, older + [y], now)
  {
    var grown := older + [y];
    assert grown[|older|] == y;
    UnexpiredKeeps(grown, |older|, now - c.cacheTtl);
    UnexpiredFacts(grown, now - c.cacheTtl);
    var kept := Unexpired(grown, now - c.cacheTtl);
    assert kept[|kept| - 1] == y;
    TrimKeeps(kept, |kept| - 1, Limit(c));
    TrimFacts(kept, Limit(c));
    var left := Trim(kept, Limit(c));
    assert left[|left| - 1] == y;
  }

  /** LRU retention, counted from the last touch, whether that was the publication or a
      repeat. While fewer than max_entries - 1 other identities are published or repeated, no
      call comes after the entry's lifetime, and its session is not disconnected, the entry
      stays cached, and the quote coming again is answered as a duplicate and stays cached. */
  lemma TouchedQuoteStaysSuppressed(
      c: Config, before: seq<Step>, e: Envelope, x: Seen, after: seq<Step>, again: Envelope)
    requires var s0 := Run(c, START, before);
             Touched(c, s0, Receive(e)) == {x.id} && x in Move(c, s0, Receive(e)).seen
    requires forall a | a in after :: Spares(c, x, a)
    requires |TouchedBy(c, Move(c, Run(c, START, before), Receive(e)), after) - {x.id}| < Limit(c) - 1
    ensures var s2 := Run(c, Move(c, Run(c, START, before), Receive(e)), after);
            && x in s2.seen
            && (Spares(c, x, Receive(again)) && IdentityIn(c, s2, again) == Some(x.id) && !Raises(again) ==>
                  && Process(c, s2, again).1 == Output([DupStrongKey], None)
                  && x in Process(c, s2, again).0.seen
                  && Touched(c, s2, Receive(again)) == {x.id})
  {
    var s0 := Run(c, START, before);
    var s1 := Move(c, s0, Receive(e));
    var s2 := Run(c, s1, after);
    RunStaysDistinct(c, START, before);
    TouchedIsYoungest(c, s0, e, x);
    RunHolds(c, s1, after, x, {});
    var others := {} + (TouchedBy(c, s1, after) - {x.id});
    if Spares(c, x, Receive(again)) && IdentityIn(c, s2, again) == Some(x.id) && !Raises(again) {
      HeldIsSuppressed(c, s2, x, others, again);
    }
  }

  lemma HeldIsSuppressed(c: Config, s: State, x: Seen, others: set<Identity>, again: Envelope)
    requires DistinctSeen(s.seen) && Holds(s.seen, x, others) && |others| < Limit(c) - 1
    requires Spares(c, x, Receive(again)) && IdentityIn(c, s, again) == Some(x.id) && !Raises(again)
    ensures Process(c, s, again).1 == Output([DupStrongKey], None)
    ensures x in Process(c, s, again).0.seen && Touched(c, s, Receive(again)) == {x.id}
  {
    PurgeHolds(c, s.seen, CollectorTime(again), x, others);
    var purged := Purge(c, s.seen, CollectorTime(again));
    var k :| 0 <= k < |purged| && purged[k] == x;
    assert Position(purged, x.id) < |purged|;
    MoveToEndFacts(purged, Position(purged, x.id));
  }

  /** In particular once published, a quote is not published again in that time. */
  lemma PublishedQuoteStaysSuppressed(
      c: Config, before: seq<Step>, e: Envelope, after: seq<Step>, again: Envelope)
    requires TickFrom(c, Run(c, START, before), Receive(e)).Some?
    requires var s1 := Move(c, Run(c, START, before), Receive(e));
             var id := IdentityIn(c, Run(c, START, before), e).value;
             var x := Seen(id, CollectorTime(e), id.key);
             && (forall a | a in [Receive(e)] + after + [Receive(again)] :: Spares(c, x, a))
             && |TouchedBy(c, s1, after) - {id}| < Limit(c) - 1
             && IdentityIn(c, Run(c, s1, after), again) == Some(id)
    ensures var s1 := Move(c, Run(c, START, before), Receive(e));
            TickFrom(c, Run(c, s1, after), Receive(again)) == None
  {
    var s0 := Run(c, START, before);
    var id := IdentityIn(c, s0, e).value;
    var x := Seen(id, CollectorTime(e), id.key);
    var all := [Receive(e)] + after + [Receive(again)];
    assert all[0] == Receive(e) && all[|all| - 1] == Receive(again);
    assert Spares(c, x, all[0]) && Spares(c, x, all[|all| - 1]);
    assert forall a | a in after :: a in all;
    PublishedIsCached(c, s0, e);
    TouchedQuoteStaysSuppressed(c, before, e, x, after, again);
  }

  // ------------------------------------------------ state as a fold of output

  /** A key's ticks since it was last disconnected, continuing `past`. */
  function Since(c: Config, s: State, steps: seq<Step>, k: Key, past: seq<Tick>): seq<Tick>
    decreases |steps|
  {
    if steps == [] then past
    else Since(c, Move(c, s, steps[0]), steps[1..], k, Extend(c, s, steps[0], k, past))
  }

  function Extend(c: Config, s: State, a: Step, k: Key, past: seq<Tick>): seq<Tick> {
    if a.Drop? && Concerns(k, a) then []
    else past + TicksOf(k, Listed(TickFrom(c, s, a)))
  }

  ghost predicate Sane(t: Tick) {
    var spec := SpecOf(t.key.instrument);
    0.0 < t.bid.value && spec.minPrice <= t.bid.value <= t.ask.value <= spec.maxPrice
  }

  /** The live quote is the last of these ticks. */
  ghost predicate Mirrors(s: State, k: Key, past: seq<Tick>) {
    && (k in s.quotes <==> past != [])
    && (past != [] ==> s.quotes[k] == QuoteOf(past[|past| - 1]))
    && (forall j | 0 <= j < |past| :: past[j].key == k && Sane(past[j]))
  }

  lemma MoveMirrors(c: Config, s: State, a: Step, k: Key, past: seq<Tick>)
    requires Mirrors(s, k, past)
    ensures Mirrors(Move(c, s, a), k, Extend(c, s, a, k, past))
  {
    if a.Receive? && !Raises(a.envelope) {
      var prev := Lookup(s.quotes, KeyOf(a.envelope));
      if Assess(c, prev, a.envelope).Accept? {
        AcceptedFacts(c, prev, a.envelope);
      }
    }
    var t := TickFrom(c, s, a);
    assert TicksOf(k, Listed(t)) == if t.Some? && t.value.key == k then [t.value] else [];
    assert past + [] == past;
  }

  lemma {:induction false} RunMirrors(c: Config, s: State, steps: seq<Step>, k: Key, past: seq<Tick>)
    requires Mirrors(s, k, past)
    ensures Mirrors(Run(c, s, steps), k, Since(c, s, steps, k, past))
    decreases |steps|
  {
    if steps != [] {
      MoveMirrors(c, s, steps[0], k, past);
      RunMirrors(c, Move(c, s, steps[0]), steps[1..], k, Extend(c, s, steps[0], k, past));
    }
  }

  /** The stored quote of a key is exactly the last tick published since its last disconnect,
      and every tick keeps the registry's broad range with bid <= ask. */
  lemma StateIsLastTick(c: Config, steps: seq<Step>, k: Key)
    ensures Mirrors(Run(c, START, steps), k, Since(c, START, steps, k, []))
  {
    RunMirrors(c, START, steps, k, []);
  }

  ghost predicate CompletedFrom(c: Config, last: Quote, e: Envelope, t: Tick)
    requires e.payload.Object?
  {
    && t.updatedAt - last.updatedAt <= c.partialMaxAge
    && (|| (t.changed == [Bid] && t.ask == last.ask && Some(t.bid) == e.payload.bid)
        || (t.changed == [Ask] && t.bid == last.bid && Some(t.ask) == e.payload.ask))
  }

  lemma PartialIsCompleted(c: Config, s: State, e: Envelope)
    requires var t := TickFrom(c, s, Receive(e)); t.Some? && !t.value.isSnapshot
    ensures var t := TickFrom(c, s, Receive(e)).value;
            t.key in s.quotes && e.payload.Object? && CompletedFrom(c, s.quotes[t.key], e, t)
  {
    var prev := Lookup(s.quotes, KeyOf(e));
    AcceptedFacts(c, prev, e);
    var q := Assess(c, prev, e).quote;
    assert SidesOf(c, prev, e).Both?;
    assert TickFrom(c, s, Receive(e)) == Some(TickOf(e, q, Admit(c, prev, e, q).warnings));
  }

  /** A partial tick changes one side; the other is that of the key's last tick since its
      last disconnect, and that tick is fresh enough. */
  lemma PartialKeepsOtherSide(c: Config, steps: seq<Step>, e: Envelope)
    requires var t := TickFrom(c, Run(c, START, steps), Receive(e)); t.Some? && !t.value.isSnapshot
    ensures var t := TickFrom(c, Run(c, START, steps), Receive(e)).value;
            var past := Since(c, START, steps, t.key, []);
            past != [] && e.payload.Object? && CompletedFrom(c, QuoteOf(past[|past| - 1]), e, t)
  {
    PartialIsCompleted(c, Run(c, START, steps), e);
    StateIsLastTick(c, steps, TickFrom(c, Run(c, START, steps), Receive(e)).value.key);
  }

  /** Whether all of a key's envelopes are of one kind. */
  ghost predicate AllFor(k: Key, steps: seq<Step>, visible: bool) {
    forall a | a in steps && a.Receive? && KeyOf(a.envelope) == Some(k) :: Visible(a.envelope) == visible
  }

  ghost predicate SequencesIncrease(ticks: seq<Tick>) {
    && (forall j | 0 <= j < |ticks| :: ticks[j].sequence.Some?)
    && (forall i, j | 0 <= i < j < |ticks| :: ticks[i].sequence.value < ticks[j].sequence.value)
  }

  ghost predicate TimesDoNotDecrease(ticks: seq<Tick>) {
    forall i, j | 0 <= i < j < |ticks| :: ticks[i].orderTime <= ticks[j].orderTime
  }

  lemma NextInOrder(c: Config, s: State, a: Step, k: Key, past: seq<Tick>)
    requires Mirrors(s, k, past)
    ensures AllFor(k, [a], true) && SequencesIncrease(past) ==> SequencesIncrease(Extend(c, s, a, k, past))
    ensures AllFor(k, [a], false) && TimesDoNotDecrease(past) ==> TimesDoNotDecrease(Extend(c, s, a, k, past))
  {
    var t := TickFrom(c, s, a);
    assert TicksOf(k, Listed(t)) == if t.Some? && t.value.key == k then [t.value] else [];
    assert past + [] == past;
    if t.Some? && t.value.key == k {
      var e := a.envelope;
      var prev := Lookup(s.quotes, KeyOf(e));
      AcceptedFacts(c, prev, e);
      PublishedFacts(c, prev, e, Assess(c, prev, e).quote);
      assert a in [a];
    }
  }

  lemma {:induction false} RunInOrder(c: Config, s: State, steps: seq<Step>, k: Key, past: seq<Tick>)
    requires Mirrors(s, k, past)
    ensures AllFor(k, steps, true) && SequencesIncrease(past) ==> SequencesIncrease(Since(c, s, steps, k, past))
    ensures AllFor(k, steps, false) && TimesDoNotDecrease(past) ==> TimesDoNotDecrease(Since(c, s, steps, k, past))
    decreases |steps|
  {
    if steps != [] {
      MoveMirrors(c, s, steps[0], k, past);
      NextInOrder(c, s, steps[0], k, past);
      RunInOrder(c, Move(c, s, steps[0]), steps[1..], k, Extend(c, s, steps[0], k, past));
    }
  }

  /** Since a key's last disconnect its display ticks have strictly increasing sequences, and
      a key fed by provider envelopes only never goes back in order time. */
  lemma TicksKeepOrder(c: Config, steps: seq<Step>, k: Key)
    ensures AllFor(k, steps, true) ==> SequencesIncrease(Since(c, START, steps, k, []))
    ensures AllFor(k, steps, false) ==> TimesDoNotDecrease(Since(c, START, steps, k, []))
  {
    RunInOrder(c, START, steps, k, []);
  }

  // ------------------------------------------------- when a tick is published

  /** The last sequence known of the envelope's key: the live one, or for a display quote
      without one what was stored before. */
  function KnownSequence(prev: Option<Quote>, e: Envelope): Option<int> {
    if prev.Some? && prev.value.sequence.Some? then prev.value.sequence
    else if Visible(e) then e.persistedLast else None
  }

  ghost predicate SequenceAdvances(prev: Option<Quote>, e: Envelope)
    requires e.payload.Object?
  {
    var s, known := SequenceOf(e), KnownSequence(prev, e);
    (Visible(e) ==> s.Some?) && (s.Some? && known.Some? ==> s.value > known.value)
  }

  /** The bid and ask a tick would carry. */
  ghost predicate Quotes(c: Config, prev: Option<Quote>, e: Envelope, bid: Decimal, ask: Decimal)
    requires e.payload.Object?
  {
    var given, asked := e.payload.bid, e.payload.ask;
    || (e.semantics == Snapshot && given == Some(bid) && asked == Some(ask))
    || (&& e.semantics == Partial && prev.Some? && e.receivedAt - prev.value.updatedAt <= c.partialMaxAge
        && (|| (given == Some(bid) && asked == None && ask == prev.value.ask)
            || (asked == Some(ask) && given == None && bid == prev.value.bid)))
  }

  ghost predicate Plausible(i: Instrument, bid: Decimal, ask: Decimal) {
    0.0 < bid.value && SpecOf(i).minPrice <= bid.value <= ask.value <= SpecOf(i).maxPrice
  }

  /** A provider time is used for provider quotes only, and must not lie in the future. */
  ghost predicate Timely(c: Config, e: Envelope)
    requires e.payload.Object?
  {
    Visible(e) || e.payload.providerTime == Absent
    || (e.payload.providerTime.At? && e.payload.providerTime.time <= e.receivedAt + c.futureSkew)
  }

  function OrderTime(e: Envelope): int
    requires e.payload.Object?
  {
    if !Visible(e) && e.payload.providerTime.At? then e.payload.providerTime.time else ObservedTime(e)
  }

  /** Order time does not go back, unless it is the local clock that did and that is tolerated. */
  ghost predicate InTime(c: Config, prev: Option<Quote>, e: Envelope)
    requires e.payload.Object?
  {
    prev.Some? && OrderTime(e) < prev.value.orderTime ==>
      Visible(e) && SequenceOf(e).Some? && !c.rejectClockAdjustment
  }

  ghost predicate DelayTolerated(c: Config, e: Envelope) {
    var delay := CollectorTime(e) - ObservedTime(e);
    Visible(e) ==> (delay < 0 ==> !c.rejectNegativeDelay) && (delay > c.maxDelay ==> !c.rejectExcessiveDelay)
  }

  ghost predicate WellFormed(e: Envelope) {
    !e.oversize && e.payload.Object? && e.payload.instrument.Some?
    && (Visible(e) && e.observationSequence.Some? ==> e.observationSequence.value >= 1)
  }

  /** All that is asked of an envelope whose quote would be bid / ask, but for the cache. */
  ghost predicate Publishable(c: Config, prev: Option<Quote>, e: Envelope, bid: Decimal, ask: Decimal) {
    && WellFormed(e)
    && Timely(c, e) && InTime(c, prev, e) && DelayTolerated(c, e)
    && SequenceAdvances(prev, e)
    && Quotes(c, prev, e, bid, ask) && Plausible(e.payload.instrument.value, bid, ask)
  }

  function IdentityWith(e: Envelope, bid: Decimal, ask: Decimal): Identity
    requires e.payload.Object? && e.payload.instrument.Some?
  {
    Identity(KeyOf(e).value, OrderTime(e),
             if !Visible(e) && e.payload.providerTime.At? then ProviderTime else BrowserObservation,
             bid, ask, SequenceOf(e))
  }

  /** The part of the conditions that is decided before the cache is consulted. */
  ghost predicate Acceptable(c: Config, prev: Option<Quote>, e: Envelope, bid: Decimal, ask: Decimal) {
    && !e.oversize && e.payload.Object? && e.payload.instrument.Some? && Timely(c, e)
    && (Visible(e) ==> SequenceOf(e).Some?) && PersistedRule(e, prev) == None
    && Quotes(c, prev, e, bid, ask) && Plausible(e.payload.instrument.value, bid, ask)
  }

  lemma SidesAreQuotes(c: Config, prev: Option<Quote>, e: Envelope, bid: Decimal, ask: Decimal)
    requires e.payload.Object?
    ensures Quotes(c, prev, e, bid, ask) <==>
              var sides := SidesOf(c, prev, e); sides.Both? && sides.bid == bid && sides.ask == ask
  {
  }

  lemma AcceptsExactlyWhen(c: Config, prev: Option<Quote>, e: Envelope, bid: Decimal, ask: Decimal)
    ensures Acceptable(c, prev, e, bid, ask) <==>
              && Assess(c, prev, e).Accept?
              && Assess(c, prev, e).quote.bid == bid && Assess(c, prev, e).quote.ask == ask
    ensures Assess(c, prev, e).Accept? ==>
              var q := Assess(c, prev, e).quote;
              && IdentityOf(q) == IdentityWith(e, q.bid, q.ask)
              && q.orderTime == OrderTime(e) && q.sequence == SequenceOf(e)
  {
    if e.payload.Object? {
      SidesAreQuotes(c, prev, e, bid, ask);
    }
  }

  lemma AdmitsExactlyWhen(c: Config, prev: Option<Quote>, e: Envelope, q: Candidate)
    requires e.payload.Object? && q.orderTime == OrderTime(e) && q.sequence == SequenceOf(e)
    ensures Admit(c, prev, e, q).Publish? <==>
              && InTime(c, prev, e) && DelayTolerated(c, e)
              && (prev.Some? && prev.value.sequence.Some? && q.sequence.Some? ==>
                    q.sequence.value > prev.value.sequence.value)
  {
  }

  lemma SequenceRule(prev: Option<Quote>, e: Envelope)
    requires e.payload.Object?
    ensures SequenceAdvances(prev, e) <==>
              && (Visible(e) ==> SequenceOf(e).Some?) && PersistedRule(e, prev) == None
              && (prev.Some? && prev.value.sequence.Some? && SequenceOf(e).Some? ==>
                    SequenceOf(e).value > prev.value.sequence.value)
  {
  }

  /** Exactly when a tick with this bid and ask is published: the envelope is well formed, its
      quote is complete and plausible, its sequence advances on everything known of its key,
      its times are acceptable, and its identity is not cached. */
  lemma PublishesExactlyWhen(c: Config, s: State, e: Envelope, bid: Decimal, ask: Decimal)
    ensures var t := TickFrom(c, s, Receive(e));
            (t.Some? && t.value.bid == bid && t.value.ask == ask) <==>
              && Publishable(c, Lookup(s.quotes, KeyOf(e)), e, bid, ask)
              && forall x | x in Purge(c, s.seen, CollectorTime(e)) :: x.id != IdentityWith(e, bid, ask)
  {
    var prev := Lookup(s.quotes, KeyOf(e));
    var seen := Purge(c, s.seen, CollectorTime(e));
    AcceptsExactlyWhen(c, prev, e, bid, ask);
    if Acceptable(c, prev, e, bid, ask) {
      var q := Assess(c, prev, e).quote;
      AdmitsExactlyWhen(c, prev, e, q);
      SequenceRule(prev, e);
      assert Position(seen, IdentityOf(q)) == |seen| <==> forall x | x in seen :: x.id != IdentityOf(q);
    } else if e.payload.Object? {
      SequenceRule(prev, e);
    }
  }

  /** The spread exceeds the limit, in pips. */
  ghost predicate WideBy(c: Config, spec: Spec, t: Tick) {
    t.ask.value - t.bid.value > Or(c.spreadLimit, spec.spreadPips) * spec.pipSize
  }

  /** The middle price moved by more than the limit, in pips, either way. */
  ghost predicate JumpsFrom(c: Config, spec: Spec, last: Quote, t: Tick) {
    var twice := (t.bid.value + t.ask.value) - (last.bid.value + last.ask.value);
    var limit := 2.0 * Or(c.jumpLimit, spec.jumpPips) * spec.pipSize;
    twice > limit || -twice > limit
  }

  lemma PublishedTick(c: Config, s: State, e: Envelope)
    requires TickFrom(c, s, Receive(e)).Some?
    ensures var prev := Lookup(s.quotes, KeyOf(e));
            && e.payload.Object?
            && Assess(c, prev, e).Accept?
            && var q := Assess(c, prev, e).quote;
               && Admit(c, prev, e, q).Publish?
               && TickFrom(c, s, Receive(e)) == Some(TickOf(e, q, Admit(c, prev, e, q).warnings))
               && (q.basis == BrowserObservation <==> Visible(e) || !e.payload.providerTime.At?)
  {
  }

  /** What a published tick warns of. */
  lemma WarningsAreExact(c: Config, s: State, e: Envelope)
    requires TickFrom(c, s, Receive(e)).Some?
    ensures var t := TickFrom(c, s, Receive(e)).value;
            var prev := Lookup(s.quotes, KeyOf(e));
            var spec := SpecOf(t.key.instrument);
            var delay := CollectorTime(e) - ObservedTime(e);
            && e.payload.Object?
            && (TimeProviderUnavailable in t.warnings <==> Visible(e) || !e.payload.providerTime.At?)
            && (TimeLocalWallClockAdjustment in t.warnings <==> prev.Some? && t.orderTime < prev.value.orderTime)
            && (PlausExtremeSpread in t.warnings <==> WideBy(c, spec, t))
            && (TimeNegativeDelay in t.warnings <==> Visible(e) && delay < 0)
            && (TimeExcessiveDelay in t.warnings <==> Visible(e) && delay > c.maxDelay)
            && (PlausExtremeJump in t.warnings <==> prev.Some? && JumpsFrom(c, spec, prev.value, t))
  {
    var prev := Lookup(s.quotes, KeyOf(e));
    PublishedTick(c, s, e);
    var q := Assess(c, prev, e).quote;
    var t := TickOf(e, q, Admit(c, prev, e, q).warnings);
    WarningsOf(c, prev, e, q);
    SpreadAsPrice(c, q, t);
    if prev.Some? {
      JumpAsPrice(c, prev.value, q, t);
    }
  }

  lemma OrderWarnings(c: Config, prev: Option<Quote>, e: Envelope, q: Candidate)
    requires OrderRuling(c, prev, e, q).Publish?
    ensures var w := OrderRuling(c, prev, e, q).warnings;
            && (TimeProviderUnavailable in w <==> q.basis == BrowserObservation)
            && (TimeLocalWallClockAdjustment in w <==> prev.Some? && q.orderTime < prev.value.orderTime)
            && (PlausExtremeJump in w <==> prev.Some? && Jumps(c, prev.value, q))
            && PlausExtremeSpread !in w && TimeNegativeDelay !in w && TimeExcessiveDelay !in w
  {
  }

  lemma AdmitConcatenates(
      c: Config, prev: Option<Quote>, e: Envelope, q: Candidate,
      order: seq<Rule>, spread: seq<Rule>, negative: seq<Rule>, excessive: seq<Rule>)
    requires Admit(c, prev, e, q).Publish?
    requires OrderRuling(c, prev, e, q) == Publish(order)
    requires var delay := CollectorTime(e) - ObservedTime(e);
             && spread == (if WideSpread(c, q) then [PlausExtremeSpread] else [])
             && negative == (if Visible(e) && delay < 0 then [TimeNegativeDelay] else [])
             && excessive == (if Visible(e) && delay > c.maxDelay then [TimeExcessiveDelay] else [])
    ensures Admit(c, prev, e, q).warnings == order + spread + negative + excessive
  {
  }

  lemma InConcat(a: seq<Rule>, b: seq<Rule>, c: seq<Rule>, d: seq<Rule>)
    ensures forall r :: r in a + b + c + d <==> r in a || r in b || r in c || r in d
  {
  }

  lemma WarningsOf(c: Config, prev: Option<Quote>, e: Envelope, q: Candidate)
    requires Admit(c, prev, e, q).Publish?
    ensures var w := Admit(c, prev, e, q).warnings;
            var delay := CollectorTime(e) - ObservedTime(e);
            && (TimeProviderUnavailable in w <==> q.basis == BrowserObservation)
            && (TimeLocalWallClockAdjustment in w <==> prev.Some? && q.orderTime < prev.value.orderTime)
            && (PlausExtremeSpread in w <==> WideSpread(c, q))
            && (TimeNegativeDelay in w <==> Visible(e) && delay < 0)
            && (TimeExcessiveDelay in w <==> Visible(e) && delay > c.maxDelay)
            && (PlausExtremeJump in w <==> prev.Some? && Jumps(c, prev.value, q))
  {
    OrderWarnings(c, prev, e, q);
    var delay := CollectorTime(e) - ObservedTime(e);
    var order := OrderRuling(c, prev, e, q).warnings;
    var spread := if WideSpread(c, q) then [PlausExtremeSpread] else [];
    var negative := if Visible(e) && delay < 0 then [TimeNegativeDelay] else [];
    var excessive := if Visible(e) && delay > c.maxDelay then [TimeExcessiveDelay] else [];
    AdmitConcatenates(c, prev, e, q, order, spread, negative, excessive);
    InConcat(order, spread, negative, excessive);
  }

  lemma Scaled(x: real, y: real, pip: real)
    requires pip > 0.0
    ensures x / pip > y <==> x > y * pip
  {
    assert x == (x / pip) * pip;
    if x / pip > y {
      assert (x / pip - y) * pip > 0.0;
    } else {
      assert (y - x / pip) * pip >= 0.0;
    }
  }

  lemma SpreadAsPrice(c: Config, q: Candidate, t: Tick)
    requires t.bid == q.bid && t.ask == q.ask
    ensures WideSpread(c, q) <==> WideBy(c, SpecOf(q.key.instrument), t)
  {
    var spec := SpecOf(q.key.instrument);
    Scaled(q.ask.value - q.bid.value, Or(c.spreadLimit, spec.spreadPips), spec.pipSize);
  }

  lemma JumpAsPrice(c: Config, prev: Quote, q: Candidate, t: Tick)
    requires t.bid == q.bid && t.ask == q.ask
    ensures Jumps(c, prev, q) <==> JumpsFrom(c, SpecOf(q.key.instrument), prev, t)
  {
    var spec := SpecOf(q.key.instrument);
    var limit := Or(c.jumpLimit, spec.jumpPips);
    Scaled(Abs(Mid(q.bid, q.ask) - Mid(prev.bid, prev.ask)), limit, spec.pipSize);
    assert 2.0 * limit * spec.pipSize == 2.0 * (limit * spec.pipSize);
  }
}

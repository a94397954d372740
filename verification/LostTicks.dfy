/** Ticks are not exactly-once. What a store loses that fails after the adapter published, and
    exactly when a retry makes up for it. */
module LostTicks {
  import opened Wrappers
  import opened Instruments
  import opened CollectorModel
  import opened CollectorLaws
  import opened StoreLaws
  import opened SingleSource
  import A = AdapterModel
  import AL = AdapterLaws

  /** A quote whose sequence is the live one yields no tick. */
  lemma RepeatedSequenceIsSuppressed(cfg: A.Config, s: A.State, e: A.Envelope)
    requires A.Visible(e) && e.payload.instrument.Some? && e.observationSequence.Some?
    requires A.KeyOf(e).value in s.quotes && s.quotes[A.KeyOf(e).value].sequence == e.observationSequence
    ensures A.TickFrom(cfg, s, A.Receive(e)) == None
  {
    var prev := A.Lookup(s.quotes, A.KeyOf(e));
    if A.Assess(cfg, prev, e).Accept? {
      AL.AcceptedFacts(cfg, prev, e);
      var q := A.Assess(cfg, prev, e).quote;
      assert A.OrderRuling(cfg, prev, e, q).Suppress?;
    }
  }

  // ------------------------------------------------ the cache stays covered

  lemma DisconnectKeepsCovered(a: A.State, conn: nat, session: nat)
    requires AL.AllCovered(a)
    ensures AL.AllCovered(A.Disconnect(a, conn, session))
  {
    AL.OthersFacts(a.seen, conn, session);
  }

  lemma {:induction false} ExpireKeepsCovered(cfg: Settings, c: Collector, now: int, todo: seq<Session>)
    requires AL.AllCovered(c.adapter)
    ensures AL.AllCovered(Expire(cfg, c, now, todo).adapter)
    decreases |todo|
  {
    if todo != [] {
      DisconnectKeepsCovered(c.adapter, todo[0].conn, todo[0].id);
      ExpireKeepsCovered(cfg, if Expired(cfg, todo[0], now) then Forget(c, todo[0]) else c, now, todo[1..]);
    }
  }

  lemma RefreshKeepsCovered(cfg: Settings, s: Server, now: int)
    requires AL.AllCovered(s.col.adapter)
    ensures AL.AllCovered(Refresh(cfg, s, now).col.adapter)
  {
    ExpireKeepsCovered(cfg, s.col, now, s.col.sessions);
  }

  lemma TouchKeepsCovered(
      cfg: Settings, s: Server, id: nat, conn: nat, t: Clock, h: Option<Heartbeat>, observed: Option<Instrument>)
    requires AL.AllCovered(s.col.adapter)
    ensures AL.AllCovered(Touch(cfg, s, id, conn, t, h, observed).col.adapter)
  {
    RefreshKeepsCovered(cfg, s, t.before);
    var s1 := Refresh(cfg, s, t.before);
    var u := Updated(s1.col.sessions, id, conn, t.at, h, observed);
    var c := s1.col.(sessions := Assigned(s1.col.sessions, u));
    if |c.sessions| > MAX_SESSIONS {
      var oldest := c.sessions[Oldest(c.sessions)];
      DisconnectKeepsCovered(c.adapter, oldest.conn, oldest.id);
      RefreshKeepsCovered(cfg, s1.(col := EvictOldest(c)), t.after);
    } else {
      RefreshKeepsCovered(cfg, s1.(col := c), t.after);
    }
  }

  lemma GreetKeepsCovered(cfg: Settings, s: Server, m: Message, t: Clock)
    requires AL.AllCovered(s.col.adapter)
    ensures AL.AllCovered(Greet(cfg, s, m, t).col.adapter)
  {
    TouchKeepsCovered(cfg, s, m.session, m.conn, t, None, Some(m.instrument));
    RefreshKeepsCovered(cfg, Touch(cfg, s, m.session, m.conn, t, None, Some(m.instrument)), t.received);
  }

  lemma ProcessKeepsCovered(cfg: A.Config, a: A.State, m: Message, received: int, stored: Option<int>)
    requires AL.AllCovered(a)
    ensures AL.AllCovered(A.Process(cfg, a, EnvelopeOf(m, received, stored)).0)
  {
    AL.OrderedStepKeepsCovered(cfg, a, A.Receive(EnvelopeOf(m, received, stored)));
  }

  lemma IngestKeepsCovered(cfg: Settings, s: Server, m: Message, t: Clock, fault: Fault)
    requires Shaped(s) && AL.AllCovered(s.col.adapter)
    ensures AL.AllCovered(Ingest(cfg, s, m, t, fault).0.col.adapter)
  {
    GreetKeepsCovered(cfg, s, m, t);
    var s1 := Greet(cfg, s, m, t);
    ProcessKeepsCovered(cfg.adapter, s1.col.adapter, m, t.received, LastSequence(s1.db.ticks, m.doc, m.instrument));
  }

  lemma BeatKeepsCovered(cfg: Settings, s: Server, id: nat, conn: nat, h: Heartbeat, t: Clock)
    requires AL.AllCovered(s.col.adapter)
    ensures AL.AllCovered(Beat(cfg, s, id, conn, h, t).col.adapter)
  {
    TouchKeepsCovered(cfg, s, id, conn, t, Some(h), None);
    var s1 := Touch(cfg, s, id, conn, t, Some(h), None);
    DisconnectKeepsCovered(s1.col.adapter, conn, id);
    RefreshKeepsCovered(cfg, s1.(col := s1.col.(adapter := A.Disconnect(s1.col.adapter, conn, id),
                                                active := Released(s1.col.active, id))), t.last);
  }

  lemma MoveKeepsCovered(cfg: Settings, s: Server, a: Step)
    requires Shaped(s) && AL.AllCovered(s.col.adapter)
    ensures AL.AllCovered(Move(cfg, s, a).col.adapter)
  {
    match a {
      case IngestQuote(m, t, fault) => IngestKeepsCovered(cfg, s, m, t, fault);
      case IngestHeartbeat(id, conn, h, t) => BeatKeepsCovered(cfg, s, id, conn, h, t);
      case IngestDiscovery(_, id, conn, _, t, _) => TouchKeepsCovered(cfg, s, id, conn, t, None, None);
      case Poll(now) => RefreshKeepsCovered(cfg, s, now);
      case Restart =>
    }
  }

  /** In every run, what the adapter's cache remembers is covered by live quotes. */
  lemma {:induction false} RunKeepsCovered(cfg: Settings, s: Server, steps: seq<Step>)
    requires Shaped(s) && AL.AllCovered(s.col.adapter)
    ensures AL.AllCovered(Run(cfg, s, steps).col.adapter)
    decreases |steps|
  {
    if steps != [] {
      MoveShapes(cfg, s, steps[0]);
      MoveKeepsCovered(cfg, s, steps[0]);
      RunKeepsCovered(cfg, Move(cfg, s, steps[0]), steps[1..]);
    }
  }

  // ----------------------------------- when one attempt stores its tick

  predicate HasTick(db: Database, id: nat) {
    exists k :: 0 <= k < |db.ticks| && db.ticks[k].rawId == id
  }

  /** What the message alone must meet: complete, numbered and plausible. */
  ghost predicate WellMade(m: Message) {
    && !m.oversize && m.sequence.Some? && m.sequence.value >= 1 && m.bid.Some? && m.ask.Some?
    && AL.Plausible(m.instrument, m.bid.value, m.ask.value)
  }

  function KeyOf(m: Message): A.Key { A.Key(m.conn, m.session, m.instrument) }

  /** The sequence is beyond the live one, or without one beyond the stored one; only a
      tolerated clock may have gone back. */
  predicate Advances(cfg: A.Config, a: A.State, m: Message, stored: Option<int>)
    requires m.sequence.Some?
  {
    if KeyOf(m) in a.quotes then
      && a.quotes[KeyOf(m)].sequence.Some? && a.quotes[KeyOf(m)].sequence.value < m.sequence.value
      && (m.observedAt < a.quotes[KeyOf(m)].orderTime ==> !cfg.rejectClockAdjustment)
    else stored.Some? ==> stored.value < m.sequence.value
  }

  predicate InDelay(cfg: A.Config, m: Message, received: int) {
    var delay := received - m.observedAt;
    (delay < 0 ==> !cfg.rejectNegativeDelay) && (delay > cfg.maxDelay ==> !cfg.rejectExcessiveDelay)
  }

  lemma PublishableMessage(
      cfg: A.Config, a: A.State, m: Message, r: int, stored: Option<int>, bid: A.Decimal, ask: A.Decimal)
    requires KeyOf(m) in a.quotes ==> a.quotes[KeyOf(m)].sequence.Some?
    ensures var e := EnvelopeOf(m, r, stored);
            AL.Publishable(cfg, A.Lookup(a.quotes, A.KeyOf(e)), e, bid, ask)
            <==> WellMade(m) && m.bid == Some(bid) && m.ask == Some(ask)
                 && Advances(cfg, a, m, stored) && InDelay(cfg, m, r)
  {
  }

  lemma AdvancingIsNotCached(
      cfg: A.Config, a: A.State, m: Message, r: int, stored: Option<int>, bid: A.Decimal, ask: A.Decimal)
    requires AL.AllCovered(a) && m.sequence.Some? && Advances(cfg, a, m, stored)
    ensures forall x | x in A.Purge(cfg, a.seen, r) :: x.id != AL.IdentityWith(EnvelopeOf(m, r, stored), bid, ask)
  {
    AL.PurgeFacts(cfg, a.seen, r);
    forall x | x in A.Purge(cfg, a.seen, r)
      ensures x.id != AL.IdentityWith(EnvelopeOf(m, r, stored), bid, ask)
    {
      assert AL.Covered(a, x);
    }
  }

  /** Exactly which collector messages the adapter publishes. */
  lemma MessagePublishesExactlyWhen(cfg: A.Config, a: A.State, m: Message, r: int, stored: Option<int>)
    requires AL.AllCovered(a) && (KeyOf(m) in a.quotes ==> a.quotes[KeyOf(m)].sequence.Some?)
    ensures A.TickFrom(cfg, a, A.Receive(EnvelopeOf(m, r, stored))).Some?
            <==> WellMade(m) && Advances(cfg, a, m, stored) && InDelay(cfg, m, r)
  {
    var e := EnvelopeOf(m, r, stored);
    if A.TickFrom(cfg, a, A.Receive(e)).Some? {
      var t := A.TickFrom(cfg, a, A.Receive(e)).value;
      AL.PublishesExactlyWhen(cfg, a, e, t.bid, t.ask);
      PublishableMessage(cfg, a, m, r, stored, t.bid, t.ask);
    }
    if WellMade(m) && Advances(cfg, a, m, stored) && InDelay(cfg, m, r) {
      PublishableMessage(cfg, a, m, r, stored, m.bid.value, m.ask.value);
      AdvancingIsNotCached(cfg, a, m, r, stored, m.bid.value, m.ask.value);
      AL.PublishesExactlyWhen(cfg, a, e, m.bid.value, m.ask.value);
    }
  }

  /** The handler gets to the adapter: its session holds the lease and its event is new. */
  predicate Processed(cfg: Settings, s: Server, m: Message, t: Clock, fault: Fault)
    requires Shaped(s)
  {
    var g := Greet(cfg, s, m, t);
    && m.instrument in g.col.active && g.col.active[m.instrument] == Some(m.session)
    && !HasRaw(g.db, m.eventId) && !fault.NoLookup? && !fault.NotProcessed?
  }

  predicate PastTickStore(fault: Fault) { fault == Healthy || fault == AfterTick }

  /** What the adapter is asked, and what it publishes. */
  predicate Publishes(cfg: Settings, s: Server, m: Message, t: Clock) {
    var g := Greet(cfg, s, m, t);
    A.TickFrom(cfg.adapter, g.col.adapter,
               A.Receive(EnvelopeOf(m, t.received, LastSequence(g.db.ticks, m.doc, m.instrument)))).Some?
  }

  lemma IngestStoresTick(cfg: Settings, s: Server, m: Message, t: Clock, fault: Fault)
    requires Shaped(s)
    ensures var s1 := Ingest(cfg, s, m, t, fault).0;
            && (HasTick(s1.db, m.eventId) <==>
                  HasTick(s.db, m.eventId)
                  || (Processed(cfg, s, m, t, fault) && Publishes(cfg, s, m, t) && PastTickStore(fault)))
            && (HasRaw(s1.db, m.eventId) <==>
                  HasRaw(s.db, m.eventId)
                  || (Processed(cfg, s, m, t, fault) && fault != BeforeRaw && !A.Raises(Sent(cfg, s, m, t))))
  {
    GreetForgets(cfg, s, m, t);
    var g := Greet(cfg, s, m, t);
    if Processed(cfg, s, m, t, fault) {
      var g1 := g.(log := g.log + [Normalized(m.instrument, m.session)]);
      PipelineStoresTick(cfg, g1, Sent(cfg, s, m, t), m, fault);
    }
  }

  function Sent(cfg: Settings, s: Server, m: Message, t: Clock): A.Envelope {
    EnvelopeOf(m, t.received, LastSequence(Greet(cfg, s, m, t).db.ticks, m.doc, m.instrument))
  }

  lemma PipelineStoresTick(cfg: Settings, s: Server, e: A.Envelope, m: Message, fault: Fault)
    requires e.eventId == m.eventId && !HasRaw(s.db, m.eventId)
    ensures var s1 := Pipeline(cfg, s, e, m, fault).0;
            && (HasTick(s1.db, m.eventId) <==>
                  HasTick(s.db, m.eventId)
                  || (A.TickFrom(cfg.adapter, s.col.adapter, A.Receive(e)).Some? && fault != BeforeRaw && fault != AfterRaw))
            && (HasRaw(s1.db, m.eventId) <==> fault != BeforeRaw && !A.Raises(e))
  {
    var out := A.Process(cfg.adapter, s.col.adapter, e).1;
    var row := RawRow(m.eventId, m.observedAt);
    assert row !in s.db.raw;
    assert (s.db.raw + [row])[|s.db.raw|].id == m.eventId;
    assert out.Raised? <==> A.Raises(e);
    if out.Output? && out.tick.Some? {
      TickNamesItsEvent(cfg.adapter, s.col.adapter, e);
      HasTickSnoc(s.db, RowOf(m, out.tick.value), m.eventId);
    }
  }

  lemma HasTickSnoc(db: Database, row: TickRow, id: nat)
    ensures HasTick(db.(ticks := db.ticks + [row]), id) <==> HasTick(db, id) || row.rawId == id
  {
    var ticks := db.ticks + [row];
    assert ticks[|db.ticks|] == row;
    if HasTick(db, id) {
      var k :| 0 <= k < |db.ticks| && db.ticks[k].rawId == id;
      assert ticks[k].rawId == id;
    }
  }

  lemma IngestDetails(connOf: nat -> nat, cfg: Settings, s: Server, m: Message, t: Clock)
    requires Shaped(s) && Sequenced(connOf, s) && AL.AllCovered(s.col.adapter)
    ensures var g := Greet(cfg, s, m, t);
            && g.db == s.db
            && (Publishes(cfg, s, m, t) <==>
                  && WellMade(m) && InDelay(cfg.adapter, m, t.received)
                  && Advances(cfg.adapter, g.col.adapter, m, LastSequence(s.db.ticks, m.doc, m.instrument)))
  {
    GreetForgets(cfg, s, m, t);
    GreetKeepsCovered(cfg, s, m, t);
    var g := Greet(cfg, s, m, t);
    ForgettingKeepsSequenced(connOf, s, g);
    MessagePublishesExactlyWhen(cfg.adapter, g.col.adapter, m, t.received, LastSequence(g.db.ticks, m.doc, m.instrument));
  }

  lemma RunIsKept(connOf: nat -> nat, cfg: Settings, s: Server, steps: seq<Step>)
    requires Shaped(s) && Kept(connOf, s) && forall a | a in steps :: Identified(connOf, a)
    ensures Kept(connOf, Run(cfg, s, steps))
  {
    RunStaysSequenced(connOf, cfg, s, steps);
    RunKeepsCovered(cfg, s, steps);
    RunStores(cfg, s, steps);
  }

  /** What every run of identified steps keeps. */
  ghost predicate Kept(connOf: nat -> nat, s: Server) {
    Sequenced(connOf, s) && AL.AllCovered(s.col.adapter) && Idempotent(s.db)
  }

  lemma TickHasRaw(db: Database, id: nat)
    requires Idempotent(db) && HasTick(db, id)
    ensures HasRaw(db, id)
  {
  }

  /** Exactly when one attempt stores its tick, in every run: its handler gets to the adapter
      and past the tick store, its message is well made, its sequence is beyond all that is
      known, and its delay is tolerated. */
  lemma AttemptStoresExactlyWhen(
      connOf: nat -> nat, cfg: Settings, steps: seq<Step>, m: Message, t: Clock, fault: Fault)
    requires forall a | a in steps :: Identified(connOf, a)
    ensures var s := Run(cfg, EMPTY, steps);
            HasTick(Ingest(cfg, s, m, t, fault).0.db, m.eventId) <==>
              || HasTick(s.db, m.eventId)
              || (&& Processed(cfg, s, m, t, fault) && PastTickStore(fault)
                  && WellMade(m) && InDelay(cfg.adapter, m, t.received)
                  && Advances(cfg.adapter, Greet(cfg, s, m, t).col.adapter, m,
                              LastSequence(s.db.ticks, m.doc, m.instrument)))
  {
    RunIsKept(connOf, cfg, EMPTY, steps);
    var s := Run(cfg, EMPTY, steps);
    IngestStoresTick(cfg, s, m, t, fault);
    IngestDetails(connOf, cfg, s, m, t);
  }

  // ------------------------------------------------------- what is final

  lemma MoveKeepsTickless(cfg: Settings, s: Server, a: Step, id: nat)
    requires Shaped(s) && HasRaw(s.db, id) && !HasTick(s.db, id)
    ensures HasRaw(Move(cfg, s, a).db, id) && !HasTick(Move(cfg, s, a).db, id)
  {
    match a {
      case IngestQuote(m, t, fault) =>
        if m.eventId == id {
          IngestStoresTick(cfg, s, m, t, fault);
          GreetForgets(cfg, s, m, t);
        } else {
          OtherEventStores(cfg, s, m, t, fault, id);
        }
      case IngestHeartbeat(sid, conn, h, t) => BeatForgets(cfg, s, sid, conn, h, t);
      case IngestDiscovery(eventId, sid, conn, received, t, fault) =>
        TouchForgets(cfg, s, sid, conn, t, None, None);
        RawSnoc(s.db, RawRow(eventId, received), id);
      case Poll(now) => RefreshForgets(cfg, s, now);
      case Restart =>
    }
  }

  lemma RawSnoc(db: Database, row: RawRow, id: nat)
    ensures HasRaw(StoreRaw(db, row), id) <==> HasRaw(db, id) || row.id == id
    ensures HasTick(StoreRaw(db, row), id) <==> HasTick(db, id)
  {
    if row in db.raw {
      var k :| 0 <= k < |db.raw| && db.raw[k] == row;
    } else {
      var raw := db.raw + [row];
      assert raw[|db.raw|] == row;
      if HasRaw(db, id) {
        var k :| 0 <= k < |db.raw| && db.raw[k].id == id;
        assert raw[k].id == id;
      }
    }
  }

  /** An ingest touches no other event's rows. */
  lemma OtherEventStores(cfg: Settings, s: Server, m: Message, t: Clock, fault: Fault, id: nat)
    requires Shaped(s) && m.eventId != id
    ensures var s1 := Ingest(cfg, s, m, t, fault).0;
            (HasRaw(s1.db, id) <==> HasRaw(s.db, id)) && (HasTick(s1.db, id) <==> HasTick(s.db, id))
  {
    GreetForgets(cfg, s, m, t);
    if Processed(cfg, s, m, t, fault) {
      var g := Greet(cfg, s, m, t);
      OtherEventPiped(cfg, g.(log := g.log + [Normalized(m.instrument, m.session)]), Sent(cfg, s, m, t), m, fault, id);
    }
  }

  lemma OtherEventPiped(cfg: Settings, s: Server, e: A.Envelope, m: Message, fault: Fault, id: nat)
    requires m.eventId != id && e.eventId == m.eventId
    ensures var s1 := Pipeline(cfg, s, e, m, fault).0;
            (HasRaw(s1.db, id) <==> HasRaw(s.db, id)) && (HasTick(s1.db, id) <==> HasTick(s.db, id))
  {
    var out := A.Process(cfg.adapter, s.col.adapter, e).1;
    var row := RawRow(m.eventId, m.observedAt);
    RawSnoc(s.db, row, id);
    if out.Output? && out.tick.Some? {
      TickNamesItsEvent(cfg.adapter, s.col.adapter, e);
      HasTickSnoc(StoreRaw(s.db, row), RowOf(m, out.tick.value), id);
    }
  }

  /** A raw row without its tick stays without, whatever happens: every later attempt is
      answered as a duplicate. */
  lemma {:induction false} RawWithoutTickIsFinal(cfg: Settings, s: Server, id: nat, more: seq<Step>)
    requires Shaped(s) && HasRaw(s.db, id) && !HasTick(s.db, id)
    ensures HasRaw(Run(cfg, s, more).db, id) && !HasTick(Run(cfg, s, more).db, id)
    decreases |more|
  {
    if more != [] {
      MoveShapes(cfg, s, more[0]);
      MoveKeepsTickless(cfg, s, more[0], id);
      RawWithoutTickIsFinal(cfg, Move(cfg, s, more[0]), id, more[1..]);
    }
  }

  /** A failure between the raw and the tick store loses the tick for good, in every run and
      every continuation. */
  lemma AfterRawLosesForEver(cfg: Settings, steps: seq<Step>, m: Message, t: Clock, more: seq<Step>)
    requires Processed(cfg, Run(cfg, EMPTY, steps), m, t, AfterRaw) && Publishes(cfg, Run(cfg, EMPTY, steps), m, t)
    ensures var s1 := Ingest(cfg, Run(cfg, EMPTY, steps), m, t, AfterRaw).0;
            && Shaped(s1)
            && HasRaw(Run(cfg, s1, more).db, m.eventId) && !HasTick(Run(cfg, s1, more).db, m.eventId)
  {
    var s := Run(cfg, EMPTY, steps);
    RunStores(cfg, EMPTY, steps);
    GreetForgets(cfg, s, m, t);
    IngestStoresTick(cfg, s, m, t, AfterRaw);
    if HasTick(s.db, m.eventId) {
      TickHasRaw(s.db, m.eventId);
    }
    MoveShapes(cfg, s, IngestQuote(m, t, AfterRaw));
    RawWithoutTickIsFinal(cfg, Ingest(cfg, s, m, t, AfterRaw).0, m.eventId, more);
  }

  // -------------------------------------- an attempt, other steps, a retry

  /** A step of another event. */
  predicate OtherEvent(m: Message, a: Step) {
    match a
    case IngestQuote(m2, _, _) => m2.eventId != m.eventId
    case IngestDiscovery(id, _, _, _, _, _) => id != m.eventId
    case _ => true
  }

  lemma {:induction false} OthersKeepRows(cfg: Settings, s: Server, m: Message, steps: seq<Step>)
    requires Shaped(s) && forall a | a in steps :: OtherEvent(m, a)
    ensures var s1 := Run(cfg, s, steps);
            && (HasRaw(s1.db, m.eventId) <==> HasRaw(s.db, m.eventId))
            && (HasTick(s1.db, m.eventId) <==> HasTick(s.db, m.eventId))
    decreases |steps|
  {
    if steps != [] {
      MoveShapes(cfg, s, steps[0]);
      OtherKeepsRows(cfg, s, m, steps[0]);
      OthersKeepRows(cfg, Move(cfg, s, steps[0]), m, steps[1..]);
    }
  }

  lemma OtherKeepsRows(cfg: Settings, s: Server, m: Message, a: Step)
    requires Shaped(s) && OtherEvent(m, a)
    ensures var s1 := Move(cfg, s, a);
            && (HasRaw(s1.db, m.eventId) <==> HasRaw(s.db, m.eventId))
            && (HasTick(s1.db, m.eventId) <==> HasTick(s.db, m.eventId))
  {
    match a {
      case IngestQuote(m2, t, fault) => OtherEventStores(cfg, s, m2, t, fault, m.eventId);
      case IngestHeartbeat(sid, conn, h, t) => BeatForgets(cfg, s, sid, conn, h, t);
      case IngestDiscovery(eventId, sid, conn, received, t, fault) =>
        TouchForgets(cfg, s, sid, conn, t, None, None);
        RawSnoc(s.db, RawRow(eventId, received), m.eventId);
      case Poll(now) => RefreshForgets(cfg, s, now);
      case Restart =>
    }
  }

  /** The quote was published by its first attempt. */
  predicate PublishedFirst(cfg: Settings, s: Server, m: Message, t: Clock, fault: Fault)
    requires Shaped(s)
  {
    Processed(cfg, s, m, t, fault) && Publishes(cfg, s, m, t)
  }

  /** The server an attempt and then other steps lead to. */
  function Later(cfg: Settings, steps: seq<Step>, m: Message, t: Clock, fault: Fault, between: seq<Step>): (s: Server)
    ensures Shaped(s)
  {
    MoveShapes(cfg, Run(cfg, EMPTY, steps), IngestQuote(m, t, fault));
    Run(cfg, Ingest(cfg, Run(cfg, EMPTY, steps), m, t, fault).0, between)
  }

  lemma LaterIsKept(
      connOf: nat -> nat, cfg: Settings, steps: seq<Step>, m: Message, t: Clock, fault: Fault, between: seq<Step>)
    requires forall a | a in steps + between :: Identified(connOf, a)
    requires m.session == m.doc && m.conn == connOf(m.session)
    ensures Kept(connOf, Later(cfg, steps, m, t, fault, between))
  {
    var s := Run(cfg, EMPTY, steps);
    assert forall a | a in steps :: a in steps + between;
    assert forall a | a in between :: a in steps + between;
    RunIsKept(connOf, cfg, EMPTY, steps);
    var a := IngestQuote(m, t, fault);
    MoveShapes(cfg, s, a);
    MoveStaysSequenced(connOf, cfg, s, a);
    MoveKeepsCovered(cfg, s, a);
    MoveStores(cfg, s, a);
    RunIsKept(connOf, cfg, Move(cfg, s, a), between);
  }

  /** The rows of a published quote after other events' steps: its first attempt's. */
  lemma LaterRows(cfg: Settings, steps: seq<Step>, m: Message, t: Clock, fault: Fault, between: seq<Step>)
    requires PublishedFirst(cfg, Run(cfg, EMPTY, steps), m, t, fault)
    requires forall a | a in between :: OtherEvent(m, a)
    ensures var s2 := Later(cfg, steps, m, t, fault, between);
            && (HasTick(s2.db, m.eventId) <==> PastTickStore(fault))
            && (HasRaw(s2.db, m.eventId) <==> fault != BeforeRaw)
  {
    var s := Run(cfg, EMPTY, steps);
    RunStores(cfg, EMPTY, steps);
    GreetForgets(cfg, s, m, t);
    IngestStoresTick(cfg, s, m, t, fault);
    if HasTick(s.db, m.eventId) {
      TickHasRaw(s.db, m.eventId);
    }
    MoveShapes(cfg, s, IngestQuote(m, t, fault));
    OthersKeepRows(cfg, Ingest(cfg, s, m, t, fault).0, m, between);
  }

  predicate HoldsLease(cfg: Settings, s: Server, m: Message, t: Clock) {
    var active := Greet(cfg, s, m, t).col.active;
    m.instrument in active && active[m.instrument] == Some(m.session)
  }

  lemma RetryStoresExactlyWhen(
      connOf: nat -> nat, cfg: Settings, s: Server, m: Message, fault: Fault, again: Clock, fault2: Fault)
    requires Shaped(s) && Kept(connOf, s) && WellMade(m)
    requires HasTick(s.db, m.eventId) <==> PastTickStore(fault)
    requires HasRaw(s.db, m.eventId) <==> fault != BeforeRaw
    ensures HasTick(Ingest(cfg, s, m, again, fault2).0.db, m.eventId) <==>
              || PastTickStore(fault)
              || (&& fault == BeforeRaw && PastTickStore(fault2) && HoldsLease(cfg, s, m, again)
                  && Advances(cfg.adapter, Greet(cfg, s, m, again).col.adapter, m,
                              LastSequence(s.db.ticks, m.doc, m.instrument))
                  && InDelay(cfg.adapter, m, again.received))
  {
    GreetForgets(cfg, s, m, again);
    IngestStoresTick(cfg, s, m, again, fault2);
    IngestDetails(connOf, cfg, s, m, again);
    assert Processed(cfg, s, m, again, fault2) <==>
             HoldsLease(cfg, s, m, again) && fault == BeforeRaw && !fault2.NoLookup? && !fault2.NotProcessed?;
  }

  lemma KeptIsWellMade(connOf: nat -> nat, cfg: Settings, s: Server, m: Message, t: Clock)
    requires Shaped(s) && Kept(connOf, s) && Publishes(cfg, s, m, t)
    ensures WellMade(m)
    ensures Advances(cfg.adapter, Greet(cfg, s, m, t).col.adapter, m, LastSequence(s.db.ticks, m.doc, m.instrument))
  {
    IngestDetails(connOf, cfg, s, m, t);
  }

  lemma LaterIsReady(
      connOf: nat -> nat, cfg: Settings, steps: seq<Step>, m: Message, t: Clock, fault: Fault, between: seq<Step>)
    requires forall a | a in steps + between :: Identified(connOf, a)
    requires m.session == m.doc && m.conn == connOf(m.session)
    requires PublishedFirst(cfg, Run(cfg, EMPTY, steps), m, t, fault)
    requires forall a | a in between :: OtherEvent(m, a)
    ensures var s2 := Later(cfg, steps, m, t, fault, between);
            && Kept(connOf, s2) && WellMade(m)
            && (HasTick(s2.db, m.eventId) <==> PastTickStore(fault))
            && (HasRaw(s2.db, m.eventId) <==> fault != BeforeRaw)
  {
    assert forall a | a in steps :: a in steps + between;
    PublishedIsWellMade(connOf, cfg, steps, m, t);
    LaterIsKept(connOf, cfg, steps, m, t, fault, between);
    LaterRows(cfg, steps, m, t, fault, between);
  }

  lemma PublishedIsWellMade(connOf: nat -> nat, cfg: Settings, steps: seq<Step>, m: Message, t: Clock)
    requires forall a | a in steps :: Identified(connOf, a)
    requires Publishes(cfg, Run(cfg, EMPTY, steps), m, t)
    ensures WellMade(m)
  {
    RunIsKept(connOf, cfg, EMPTY, steps);
    KeptIsWellMade(connOf, cfg, Run(cfg, EMPTY, steps), m, t);
  }

  /** Published by its first attempt, retried after any steps of other events: exactly when a
      tick is stored. The first attempt got past the tick store; or it failed before the raw
      store, and the retry is handled by the lease holder past the tick store, its sequence is
      still beyond all that is known, and its delay is tolerated. */
  lemma RetryPublishesExactlyWhen(
      connOf: nat -> nat, cfg: Settings, steps: seq<Step>, m: Message, t: Clock, fault: Fault,
      between: seq<Step>, again: Clock, fault2: Fault)
    requires forall a | a in steps + between :: Identified(connOf, a)
    requires m.session == m.doc && m.conn == connOf(m.session)
    requires PublishedFirst(cfg, Run(cfg, EMPTY, steps), m, t, fault)
    requires forall a | a in between :: OtherEvent(m, a)
    ensures var s2 := Later(cfg, steps, m, t, fault, between);
            && m.sequence.Some?
            && (HasTick(Ingest(cfg, s2, m, again, fault2).0.db, m.eventId) <==>
                  || PastTickStore(fault)
                  || (&& fault == BeforeRaw && PastTickStore(fault2) && HoldsLease(cfg, s2, m, again)
                      && Advances(cfg.adapter, Greet(cfg, s2, m, again).col.adapter, m,
                                  LastSequence(s2.db.ticks, m.doc, m.instrument))
                      && InDelay(cfg.adapter, m, again.received)))
  {
    LaterIsReady(connOf, cfg, steps, m, t, fault, between);
    RetryStoresExactlyWhen(connOf, cfg, Later(cfg, steps, m, t, fault, between), m, fault, again, fault2);
  }

  // ------------------------- while later quotes of the pair are held back

  /** A step of another event that is not a quote of this document and pair either. */
  predicate OtherPair(m: Message, a: Step) {
    OtherEvent(m, a) && (a.IngestQuote? ==> a.message.doc != m.doc || a.message.instrument != m.instrument)
  }

  /** The key's live quote is the message's or gone, and the store knows nothing newer. */
  ghost predicate Resting(s: Server, m: Message, stored: Option<int>) {
    && LastSequence(s.db.ticks, m.doc, m.instrument) == stored
    && (KeyOf(m) in s.col.adapter.quotes ==> s.col.adapter.quotes[KeyOf(m)].sequence == m.sequence)
  }

  lemma ForgettingRests(s: Server, s1: Server, m: Message, stored: Option<int>)
    requires Resting(s, m, stored) && Forgets(s.col.adapter, s1.col.adapter) && s1.db.ticks == s.db.ticks
    ensures Resting(s1, m, stored)
  {
  }

  lemma ProcessIsLocal(cfg: A.Config, a: A.State, e: A.Envelope, k: A.Key)
    requires A.KeyOf(e) != Some(k)
    ensures var a1 := A.Process(cfg, a, e).0;
            (k in a1.quotes <==> k in a.quotes) && (k in a.quotes ==> a1.quotes[k] == a.quotes[k])
  {
    var prev := A.Lookup(a.quotes, A.KeyOf(e));
    if A.Assess(cfg, prev, e).Accept? {
      AL.AcceptedFacts(cfg, prev, e);
    }
  }

  lemma PipelineRests(cfg: Settings, s: Server, m: Message, m2: Message, received: int, stored: Option<int>,
                      last: Option<int>, fault: Fault)
    requires Resting(s, m, stored) && m2.session == m2.doc && m.session == m.doc
    requires m2.doc != m.doc || m2.instrument != m.instrument
    ensures Resting(Pipeline(cfg, s, EnvelopeOf(m2, received, last), m2, fault).0, m, stored)
  {
    var e := EnvelopeOf(m2, received, last);
    var s1 := Pipeline(cfg, s, e, m2, fault).0;
    ProcessIsLocal(cfg.adapter, s.col.adapter, e, KeyOf(m));
    PipelineShows(cfg, s, e, m2, fault);
    PipelineTicks(cfg, s, e, m2, fault);
    if s1.db.ticks != s.db.ticks {
      LastSequenceSnoc(s.db.ticks, s1.db.ticks[|s.db.ticks|], m.doc, m.instrument);
    }
  }

  /** The tick table stays, or gains one row of the message's document and pair. */
  lemma PipelineTicks(cfg: Settings, s: Server, e: A.Envelope, m: Message, fault: Fault)
    requires A.KeyOf(e) == Some(KeyOf(m))
    ensures var ticks := Pipeline(cfg, s, e, m, fault).0.db.ticks;
            ticks == s.db.ticks
            || (&& |ticks| == |s.db.ticks| + 1 && ticks == s.db.ticks + [ticks[|s.db.ticks|]]
                && ticks[|s.db.ticks|].doc == m.doc && ticks[|s.db.ticks|].instrument == m.instrument)
  {
    var out := A.Process(cfg.adapter, s.col.adapter, e).1;
    if out.Output? && out.tick.Some? {
      TickNamesItsEvent(cfg.adapter, s.col.adapter, e);
      PipelineRow(cfg, s, e, m, fault, RowOf(m, out.tick.value));
    } else {
      PipelineNoRow(cfg, s, e, m, fault);
    }
  }

  lemma PipelineRow(cfg: Settings, s: Server, e: A.Envelope, m: Message, fault: Fault, row: TickRow)
    requires A.TickFrom(cfg.adapter, s.col.adapter, A.Receive(e)).Some?
    requires row == RowOf(m, A.TickFrom(cfg.adapter, s.col.adapter, A.Receive(e)).value)
    ensures var ticks := Pipeline(cfg, s, e, m, fault).0.db.ticks;
            ticks == s.db.ticks || ticks == s.db.ticks + [row]
  {
  }

  lemma PipelineNoRow(cfg: Settings, s: Server, e: A.Envelope, m: Message, fault: Fault)
    requires A.TickFrom(cfg.adapter, s.col.adapter, A.Receive(e)) == None
    ensures Pipeline(cfg, s, e, m, fault).0.db.ticks == s.db.ticks
  {
  }

  lemma IngestRests(cfg: Settings, s: Server, m: Message, m2: Message, t: Clock, fault: Fault, stored: Option<int>)
    requires Shaped(s) && Resting(s, m, stored) && m2.session == m2.doc && m.session == m.doc
    requires m2.doc != m.doc || m2.instrument != m.instrument
    ensures Resting(Ingest(cfg, s, m2, t, fault).0, m, stored)
  {
    GreetForgets(cfg, s, m2, t);
    var g := Greet(cfg, s, m2, t);
    ForgettingRests(s, g, m, stored);
    if Processed(cfg, s, m2, t, fault) {
      PipelineRests(cfg, g.(log := g.log + [Normalized(m2.instrument, m2.session)]), m, m2, t.received, stored,
                    LastSequence(g.db.ticks, m2.doc, m2.instrument), fault);
    }
  }

  lemma MoveRests(connOf: nat -> nat, cfg: Settings, s: Server, m: Message, a: Step, stored: Option<int>)
    requires Shaped(s) && Resting(s, m, stored) && m.session == m.doc && Identified(connOf, a) && OtherPair(m, a)
    ensures Resting(Move(cfg, s, a), m, stored)
  {
    match a {
      case IngestQuote(m2, t, fault) => IngestRests(cfg, s, m, m2, t, fault, stored);
      case IngestHeartbeat(sid, conn, h, t) =>
        BeatForgets(cfg, s, sid, conn, h, t);
        if Complete(h.targets) {
          ForgettingRests(s, Beat(cfg, s, sid, conn, h, t), m, stored);
        }
      case IngestDiscovery(id, sid, conn, received, t, fault) =>
        DiscoverForgets(cfg, s, id, sid, conn, received, t, fault);
        ForgettingRests(s, Discover(cfg, s, id, sid, conn, received, t, fault).0, m, stored);
      case Poll(now) =>
        RefreshForgets(cfg, s, now);
        ForgettingRests(s, Refresh(cfg, s, now), m, stored);
      case Restart => ForgettingRests(s, s.(col := NOTHING), m, stored);
    }
  }

  lemma DiscoverForgets(
      cfg: Settings, s: Server, id: nat, sid: nat, conn: nat, received: int, t: Clock, fault: Fault)
    ensures var s1 := Discover(cfg, s, id, sid, conn, received, t, fault).0;
            Forgets(s.col.adapter, s1.col.adapter) && s1.db.ticks == s.db.ticks
  {
    TouchForgets(cfg, s, sid, conn, t, None, None);
  }

  lemma {:induction false} RunRests(connOf: nat -> nat, cfg: Settings, s: Server, m: Message, steps: seq<Step>, stored: Option<int>)
    requires Shaped(s) && Resting(s, m, stored) && m.session == m.doc
    requires forall a | a in steps :: Identified(connOf, a) && OtherPair(m, a)
    ensures Resting(Run(cfg, s, steps), m, stored)
    decreases |steps|
  {
    if steps != [] {
      MoveShapes(cfg, s, steps[0]);
      MoveRests(connOf, cfg, s, m, steps[0], stored);
      RunRests(connOf, cfg, Move(cfg, s, steps[0]), m, steps[1..], stored);
    }
  }

  /** A first attempt that published and failed before the raw store left its quote live. */
  lemma FailedStoreAdvances(connOf: nat -> nat, cfg: Settings, steps: seq<Step>, m: Message, t: Clock)
    requires forall a | a in steps :: Identified(connOf, a)
    requires m.session == m.doc && m.conn == connOf(m.session)
    requires PublishedFirst(cfg, Run(cfg, EMPTY, steps), m, t, BeforeRaw)
    ensures var s := Run(cfg, EMPTY, steps);
            var stored := LastSequence(s.db.ticks, m.doc, m.instrument);
            && m.sequence.Some? && (stored.Some? ==> stored.value < m.sequence.value)
            && Resting(Ingest(cfg, s, m, t, BeforeRaw).0, m, stored)
  {
    var s := Run(cfg, EMPTY, steps);
    RunStaysSequenced(connOf, cfg, EMPTY, steps);
    GreetForgets(cfg, s, m, t);
    var g := Greet(cfg, s, m, t);
    ForgettingKeepsSequenced(connOf, s, g);
    ProcessStaysAhead(connOf, cfg, g, m, t.received);
    TickNamesItsEvent(cfg.adapter, g.col.adapter, Sent(cfg, s, m, t));
  }

  /** While the outbox holds later quotes of the pair back, the retry advances exactly when
      the key lost its live quote. */
  lemma RestingAdvances(connOf: nat -> nat, cfg: Settings, s: Server, m: Message, t: Clock, stored: Option<int>)
    requires Resting(s, m, stored) && m.sequence.Some? && (stored.Some? ==> stored.value < m.sequence.value)
    ensures var g := Greet(cfg, s, m, t);
            Advances(cfg.adapter, g.col.adapter, m, stored) <==> KeyOf(m) !in g.col.adapter.quotes
  {
    GreetForgets(cfg, s, m, t);
  }

  /** The exact extent of the loss, over all faults. A quote was published by its first
      attempt and comes again after steps of other events that include no quote of its
      document and pair: a tick is stored if and only if the first attempt got past the tick
      store; or it failed before the raw store, and the retry is handled by the lease holder
      past the tick store, finds no live quote of its key, and is in time. */
  lemma TickStoredExactlyWhen(
      connOf: nat -> nat, cfg: Settings, steps: seq<Step>, m: Message, t: Clock, fault: Fault,
      between: seq<Step>, again: Clock, fault2: Fault)
    requires forall a | a in steps + between :: Identified(connOf, a)
    requires m.session == m.doc && m.conn == connOf(m.session)
    requires PublishedFirst(cfg, Run(cfg, EMPTY, steps), m, t, fault)
    requires forall a | a in between :: OtherPair(m, a)
    ensures var s2 := Later(cfg, steps, m, t, fault, between);
            HasTick(Ingest(cfg, s2, m, again, fault2).0.db, m.eventId) <==>
              || PastTickStore(fault)
              || (&& fault == BeforeRaw && PastTickStore(fault2) && HoldsLease(cfg, s2, m, again)
                  && KeyOf(m) !in Greet(cfg, s2, m, again).col.adapter.quotes
                  && InDelay(cfg.adapter, m, again.received))
  {
    RetryPublishesExactlyWhen(connOf, cfg, steps, m, t, fault, between, again, fault2);
    if fault == BeforeRaw {
      LaterRests(connOf, cfg, steps, m, t, between);
      var stored := LastSequence(Run(cfg, EMPTY, steps).db.ticks, m.doc, m.instrument);
      RestingAdvances(connOf, cfg, Later(cfg, steps, m, t, fault, between), m, again, stored);
    }
  }

  lemma LaterRests(
      connOf: nat -> nat, cfg: Settings, steps: seq<Step>, m: Message, t: Clock, between: seq<Step>)
    requires forall a | a in steps + between :: Identified(connOf, a)
    requires m.session == m.doc && m.conn == connOf(m.session)
    requires PublishedFirst(cfg, Run(cfg, EMPTY, steps), m, t, BeforeRaw)
    requires forall a | a in between :: OtherPair(m, a)
    ensures var stored := LastSequence(Run(cfg, EMPTY, steps).db.ticks, m.doc, m.instrument);
            && m.sequence.Some? && (stored.Some? ==> stored.value < m.sequence.value)
            && Resting(Later(cfg, steps, m, t, BeforeRaw, between), m, stored)
  {
    var s := Run(cfg, EMPTY, steps);
    assert forall a | a in steps :: a in steps + between;
    assert forall a | a in between :: a in steps + between;
    FailedStoreAdvances(connOf, cfg, steps, m, t);
    MoveShapes(cfg, s, IngestQuote(m, t, BeforeRaw));
    RunRests(connOf, cfg, Ingest(cfg, s, m, t, BeforeRaw).0, m, between,
             LastSequence(s.db.ticks, m.doc, m.instrument));
  }

  /** Ticks are not exactly-once. When the first attempt failed between adapter and tick store
      and, if that was before the raw store, the retry still finds the quote live, then the
      retry stores no tick; and once the raw row is there, nothing ever does. */
  lemma FailedStoreLosesTheTick(
      connOf: nat -> nat, cfg: Settings, steps: seq<Step>, m: Message, t: Clock, fault: Fault,
      between: seq<Step>, again: Clock, fault2: Fault, more: seq<Step>)
    requires forall a | a in steps + between :: Identified(connOf, a)
    requires m.session == m.doc && m.conn == connOf(m.session)
    requires PublishedFirst(cfg, Run(cfg, EMPTY, steps), m, t, fault) && !PastTickStore(fault)
    requires forall a | a in between :: OtherPair(m, a)
    requires fault == BeforeRaw ==>
               KeyOf(m) in Greet(cfg, Later(cfg, steps, m, t, fault, between), m, again).col.adapter.quotes
    ensures var s3 := Ingest(cfg, Later(cfg, steps, m, t, fault, between), m, again, fault2).0;
            && Shaped(s3) && !HasTick(s3.db, m.eventId)
            && (HasRaw(s3.db, m.eventId) ==> !HasTick(Run(cfg, s3, more).db, m.eventId))
  {
    TickStoredExactlyWhen(connOf, cfg, steps, m, t, fault, between, again, fault2);
    var s2 := Later(cfg, steps, m, t, fault, between);
    MoveShapes(cfg, s2, IngestQuote(m, again, fault2));
    var s3 := Ingest(cfg, s2, m, again, fault2).0;
    if HasRaw(s3.db, m.eventId) {
      RawWithoutTickIsFinal(cfg, s3, m.eventId, more);
    }
  }

  // ---------------------------------------------------------- a lost tick

  /** The sample is published by an adapter that knows nothing. */
  lemma SampleIsPublished(cfg: A.Config)
    requires cfg.maxDelay >= 0
    ensures A.TickFrom(cfg, A.START, A.Receive(EnvelopeOf(Sample(7, 1, 7, 1), 0, None))).Some?
  {
    AL.PublishesExactlyWhen(cfg, A.START, EnvelopeOf(Sample(7, 1, 7, 1), 0, None), PRICE, PRICE);
  }

  lemma SampleIsPublishedFirst(cfg: Settings, fault: Fault)
    requires cfg.staleAfter >= 0 && cfg.expiry >= 0 && cfg.adapter.maxDelay >= 0
    requires !fault.NoLookup? && !fault.NotProcessed?
    ensures PublishedFirst(cfg, EMPTY, Sample(7, 1, 7, 1), AT_ONCE, fault)
  {
    GreetedHolds(cfg, EMPTY, Session(0, 0, 0, false, map[]), Sample(7, 1, 7, 1));
    SampleIsPublished(cfg.adapter);
  }

  lemma SampleIngest(cfg: Settings)
    requires cfg.staleAfter >= 0 && cfg.expiry >= 0 && cfg.adapter.maxDelay >= 0
    ensures var s1 := Ingest(cfg, EMPTY, Sample(7, 1, 7, 1), AT_ONCE, BeforeRaw).0;
            && |s1.col.sessions| == 1 && OneSource(s1, s1.col.sessions[0]) && s1.col.sessions[0].id == 7
            && KeyOf(Sample(7, 1, 7, 1)) in s1.col.adapter.quotes
  {
    var m := Sample(7, 1, 7, 1);
    GreetedHolds(cfg, EMPTY, Session(0, 0, 0, false, map[]), m);
    var g := Greet(cfg, EMPTY, m, AT_ONCE);
    var g1 := g.(log := g.log + [Normalized(EURUSD, 7)]);
    PipelineShows(cfg, g1, EnvelopeOf(m, 0, None), m, BeforeRaw);
    SampleIsLive(cfg.adapter);
    MoveShapes(cfg, EMPTY, IngestQuote(m, AT_ONCE, BeforeRaw));
  }

  lemma SampleIsLive(cfg: A.Config)
    requires cfg.maxDelay >= 0
    ensures KeyOf(Sample(7, 1, 7, 1)) in A.Process(cfg, A.START, EnvelopeOf(Sample(7, 1, 7, 1), 0, None)).0.quotes
  {
    SampleIsPublished(cfg);
    AL.PublishedTick(cfg, A.START, EnvelopeOf(Sample(7, 1, 7, 1), 0, None));
  }

  /** Concrete losses: delivered to an empty collector the sample yields its tick. When the raw
      store fails the first time, the retry yields the raw row alone; when the tick store
      fails, no continuation ever yields the tick. */
  lemma TickIsLost(cfg: Settings, more: seq<Step>)
    requires cfg.staleAfter >= 0 && cfg.expiry >= 0 && cfg.adapter.maxDelay >= 0
    ensures HasTick(Ingest(cfg, EMPTY, Sample(7, 1, 7, 1), AT_ONCE, Healthy).0.db, 1)
    ensures var s1 := Ingest(cfg, EMPTY, Sample(7, 1, 7, 1), AT_ONCE, BeforeRaw).0;
            && Shaped(s1)
            && var s2 := Ingest(cfg, s1, Sample(7, 1, 7, 1), AT_ONCE, Healthy).0;
               HasRaw(s2.db, 1) && !HasTick(s2.db, 1)
    ensures var s1 := Ingest(cfg, EMPTY, Sample(7, 1, 7, 1), AT_ONCE, AfterRaw).0;
            Shaped(s1) && !HasTick(Run(cfg, s1, more).db, 1)
  {
    SampleIsPublishedFirst(cfg, Healthy);
    IngestStoresTick(cfg, EMPTY, Sample(7, 1, 7, 1), AT_ONCE, Healthy);
    LostByRetry(cfg);
    SampleIsPublishedFirst(cfg, AfterRaw);
    AfterRawLosesForEver(cfg, [], Sample(7, 1, 7, 1), AT_ONCE, more);
  }

  lemma LostByRetry(cfg: Settings)
    requires cfg.staleAfter >= 0 && cfg.expiry >= 0 && cfg.adapter.maxDelay >= 0
    ensures var s1 := Ingest(cfg, EMPTY, Sample(7, 1, 7, 1), AT_ONCE, BeforeRaw).0;
            && Shaped(s1)
            && var s2 := Ingest(cfg, s1, Sample(7, 1, 7, 1), AT_ONCE, Healthy).0;
               HasRaw(s2.db, 1) && !HasTick(s2.db, 1)
  {
    var m := Sample(7, 1, 7, 1);
    var s1 := Ingest(cfg, EMPTY, m, AT_ONCE, BeforeRaw).0;
    SampleIsPublishedFirst(cfg, BeforeRaw);
    SampleWaits(cfg);
    assert Later(cfg, [], m, AT_ONCE, BeforeRaw, []) == s1;
    FailedStoreLosesTheTick(x => x, cfg, [], m, AT_ONCE, BeforeRaw, [], AT_ONCE, Healthy, []);
    IngestStoresTick(cfg, s1, m, AT_ONCE, Healthy);
  }

  lemma SampleWaits(cfg: Settings)
    requires cfg.staleAfter >= 0 && cfg.expiry >= 0 && cfg.adapter.maxDelay >= 0
    ensures var m := Sample(7, 1, 7, 1);
            var s1 := Ingest(cfg, EMPTY, m, AT_ONCE, BeforeRaw).0;
            && Shaped(s1) && Processed(cfg, s1, m, AT_ONCE, Healthy)
            && KeyOf(m) in Greet(cfg, s1, m, AT_ONCE).col.adapter.quotes
  {
    var m := Sample(7, 1, 7, 1);
    SampleIngest(cfg);
    IngestStoresTick(cfg, EMPTY, m, AT_ONCE, BeforeRaw);
    var s1 := Ingest(cfg, EMPTY, m, AT_ONCE, BeforeRaw).0;
    GreetedHolds(cfg, s1, s1.col.sessions[0], m);
  }
}

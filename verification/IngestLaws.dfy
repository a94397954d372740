/** What one ingest, heartbeat or discovery message does, stated from the outside: its answer,
    the rows it adds, and what the adapter forgets. */
module IngestLaws {
  import opened Wrappers
  import opened Instruments
  import opened CollectorModel
  import opened CollectorLaws
  import opened StoreLaws
  import opened LeaseLaws
  import A = AdapterModel
  import AL = AdapterLaws

  /** Some raw row has this id. */
  ghost predicate Known(db: Database, id: nat) {
    exists row | row in db.raw :: row.id == id
  }

  lemma KnownIsStored(db: Database, id: nat)
    ensures HasRaw(db, id) <==> Known(db, id)
  {
    if HasRaw(db, id) {
      var k :| 0 <= k < |db.raw| && db.raw[k].id == id;
      assert db.raw[k] in db.raw;
    }
  }

  /** After its greeting the sender holds the lease of the quote's pair. */
  ghost predicate Holds(g: Server, m: Message) {
    m.instrument in g.col.active && g.col.active[m.instrument] == Some(m.session)
  }

  /** What the adapter is given of a quote. */
  function Observation(g: Server, m: Message, received: int): A.Envelope {
    EnvelopeOf(m, received, LastSequence(g.db.ticks, m.doc, m.instrument))
  }

  /** The quote gets to the adapter. */
  ghost predicate Reaches(g: Server, m: Message, fault: Fault) {
    Holds(g, m) && !Known(g.db, m.eventId) && fault != NoLookup && fault != NotProcessed
  }

  /** The answer to a quote: standby exactly for a sender that holds no lease, duplicate exactly
      for an id that has a raw row, failure exactly where something failed on the way. */
  lemma IngestAnswersExactlyWhen(cfg: Settings, s: Server, m: Message, t: Clock, fault: Fault)
    requires Shaped(s)
    ensures var g, answer := Greet(cfg, s, m, t), Ingest(cfg, s, m, t, fault).1;
            var out := A.Process(cfg.adapter, g.col.adapter, Observation(g, m, t.received)).1;
            && (answer == StandbySource <==> !Holds(g, m))
            && (answer == DuplicateEvent <==> Holds(g, m) && fault != NoLookup && Known(g.db, m.eventId))
            && (answer == Failed <==>
                  && Holds(g, m)
                  && (|| fault == NoLookup
                      || (!Known(g.db, m.eventId) && (fault != Healthy || out.Raised?))))
            && (answer.Accepted? <==>
                  Holds(g, m) && !Known(g.db, m.eventId) && fault == Healthy && out.Output?)
            && (answer.Accepted? ==> answer.rules == out.rules && (answer.published <==> out.tick.Some?))
  {
    KnownIsStored(Greet(cfg, s, m, t).db, m.eventId);
  }

  /** The tick published of a quote carries the quote. */
  lemma TickCarriesQuote(c: A.Config, a: A.State, m: Message, received: int, stored: Option<int>)
    requires A.TickFrom(c, a, A.Receive(EnvelopeOf(m, received, stored))).Some?
    ensures m.bid.Some? && m.ask.Some?
    ensures var t := A.TickFrom(c, a, A.Receive(EnvelopeOf(m, received, stored))).value;
            && t.key == A.Key(m.conn, m.session, m.instrument) && t.isSnapshot && t.visible
            && t.updatedAt == m.observedAt && t.orderTime == m.observedAt && t.doc == Some(m.doc)
            && (A.TimeExcessiveDelay in t.warnings <==> received - m.observedAt > c.maxDelay)
    ensures RowOf(m, A.TickFrom(c, a, A.Receive(EnvelopeOf(m, received, stored))).value)
            == TickRow(m.eventId, m.doc, m.instrument, m.sequence, m.bid.value, m.ask.value)
  {
    var e := EnvelopeOf(m, received, stored);
    var t := A.TickFrom(c, a, A.Receive(e)).value;
    TickNamesItsEvent(c, a, e);
    AL.PublishesExactlyWhen(c, a, e, t.bid, t.ask);
    AL.PublishedTick(c, a, e);
    AL.AcceptedFacts(c, A.Lookup(a.quotes, A.KeyOf(e)), e);
    AL.WarningsAreExact(c, a, e);
  }

  /** What a quote leaves in the log the lease laws speak of: it was normalized for its sender, or
      that was standby. */
  lemma IngestLogsExactly(cfg: Settings, s: Server, m: Message, t: Clock, fault: Fault)
    requires Shaped(s)
    ensures var g, s1 := Greet(cfg, s, m, t), Ingest(cfg, s, m, t, fault).0;
            s1.log == g.log + (if !Holds(g, m) then [Standby(m.eventId)]
                               else if Reaches(g, m, fault) then [Normalized(m.instrument, m.session)] else [])
  {
    var g := Greet(cfg, s, m, t);
    KnownIsStored(g.db, m.eventId);
    if Reaches(g, m, fault) {
      PipelineShows(cfg, g.(log := g.log + [Normalized(m.instrument, m.session)]), Observation(g, m, t.received), m, fault);
    }
  }

  /** What a quote adds to the stores: its raw row exactly when it got past the raw store, and
      a tick, which carries it, exactly when one was published and got past the tick store;
      and nothing else. */
  lemma IngestStoresExactly(cfg: Settings, s: Server, m: Message, t: Clock, fault: Fault)
    requires Shaped(s)
    ensures var g, s1 := Greet(cfg, s, m, t), Ingest(cfg, s, m, t, fault).0;
            var out := A.Process(cfg.adapter, g.col.adapter, Observation(g, m, t.received)).1;
            && s1.db.raw ==
                 s.db.raw + (if Reaches(g, m, fault) && out.Output? && fault != BeforeRaw
                             then [RawRow(m.eventId, m.observedAt)] else [])
            && (Reaches(g, m, fault) && out.Output? && out.tick.Some? && (fault == Healthy || fault == AfterTick) ==>
                  && m.bid.Some? && m.ask.Some?
                  && s1.db.ticks == s.db.ticks
                       + [TickRow(m.eventId, m.doc, m.instrument, m.sequence, m.bid.value, m.ask.value)])
            && (!(Reaches(g, m, fault) && out.Output? && out.tick.Some? && (fault == Healthy || fault == AfterTick)) ==>
                  s1.db.ticks == s.db.ticks)
  {
    GreetForgets(cfg, s, m, t);
    var g := Greet(cfg, s, m, t);
    KnownIsStored(g.db, m.eventId);
    var e := Observation(g, m, t.received);
    if A.TickFrom(cfg.adapter, g.col.adapter, A.Receive(e)).Some? {
      TickCarriesQuote(cfg.adapter, g.col.adapter, m, t.received, LastSequence(g.db.ticks, m.doc, m.instrument));
    }
    if Reaches(g, m, fault) {
      PipelineStoresExactly(cfg, g.(log := g.log + [Normalized(m.instrument, m.session)]), e, m, fault);
    }
  }

  lemma PipelineStoresExactly(cfg: Settings, s: Server, e: A.Envelope, m: Message, fault: Fault)
    requires !Known(s.db, m.eventId) && fault != NoLookup && fault != NotProcessed
    ensures var out, db := A.Process(cfg.adapter, s.col.adapter, e).1, Pipeline(cfg, s, e, m, fault).0.db;
            && db.raw == s.db.raw + (if out.Output? && fault != BeforeRaw then [RawRow(m.eventId, m.observedAt)] else [])
            && db.ticks == s.db.ticks
                 + (if out.Output? && out.tick.Some? && (fault == Healthy || fault == AfterTick)
                    then [RowOf(m, out.tick.value)] else [])
  {
    assert RawRow(m.eventId, m.observedAt) !in s.db.raw;
  }

  // ---------------------------------------------------- what the ticks carry

  /** The row is the tick of the quote this step brought. */
  ghost predicate Brought(row: TickRow, a: Step) {
    && a.IngestQuote? && a.message.bid.Some? && a.message.ask.Some?
    && row == TickRow(a.message.eventId, a.message.doc, a.message.instrument, a.message.sequence,
                      a.message.bid.value, a.message.ask.value)
  }

  /** A step adds at most one tick, the one it brought. */
  lemma MoveBrings(cfg: Settings, s: Server, a: Step)
    requires Shaped(s)
    ensures var ticks := Move(cfg, s, a).db.ticks;
            ticks == s.db.ticks
            || (|ticks| == |s.db.ticks| + 1 && ticks[..|s.db.ticks|] == s.db.ticks && Brought(ticks[|s.db.ticks|], a))
  {
    match a {
      case IngestQuote(m, t, fault) => IngestStoresExactly(cfg, s, m, t, fault);
      case IngestHeartbeat(id, conn, h, t) => BeatForgets(cfg, s, id, conn, h, t);
      case IngestDiscovery(eventId, id, conn, received, t, fault) => TouchForgets(cfg, s, id, conn, t, None, None);
      case Poll(now) => RefreshForgets(cfg, s, now);
      case Restart =>
    }
  }

  ghost predicate SomeBrought(row: TickRow, steps: seq<Step>) {
    exists a | a in steps :: Brought(row, a)
  }

  ghost predicate AllBrought(ticks: seq<TickRow>, steps: seq<Step>) {
    forall row | row in ticks :: SomeBrought(row, steps)
  }

  lemma OneMoreBrought(ticks: seq<TickRow>, ticks1: seq<TickRow>, done: seq<Step>, a: Step)
    requires AllBrought(ticks, done)
    requires ticks1 == ticks
             || (|ticks1| == |ticks| + 1 && ticks1[..|ticks|] == ticks && Brought(ticks1[|ticks|], a))
    ensures AllBrought(ticks1, done + [a])
  {
    forall row | row in ticks1 ensures SomeBrought(row, done + [a]) {
      if row in ticks {
        assert SomeBrought(row, done);
        var b :| b in done && Brought(row, b);
        assert b in done + [a];
      } else {
        NewRowIsLast(ticks, ticks1, row);
        assert a in done + [a] && Brought(row, a);
      }
    }
  }

  lemma NewRowIsLast(ticks: seq<TickRow>, ticks1: seq<TickRow>, row: TickRow)
    requires ticks1 == ticks || (|ticks1| == |ticks| + 1 && ticks1[..|ticks|] == ticks)
    requires row in ticks1 && row !in ticks
    ensures |ticks1| == |ticks| + 1 && row == ticks1[|ticks|]
  {
    assert ticks1 != ticks;
    assert ticks1 == ticks + [ticks1[|ticks|]];
  }

  lemma {:induction false} RunBrings(cfg: Settings, s: Server, done: seq<Step>, steps: seq<Step>)
    requires Shaped(s) && AllBrought(s.db.ticks, done)
    ensures AllBrought(Run(cfg, s, steps).db.ticks, done + steps)
    decreases |steps|
  {
    if steps == [] {
      assert done + steps == done;
    } else {
      var s1 := Move(cfg, s, steps[0]);
      MoveShapes(cfg, s, steps[0]);
      MoveBrings(cfg, s, steps[0]);
      var more := done + [steps[0]];
      OneMoreBrought(s.db.ticks, s1.db.ticks, done, steps[0]);
      RunBrings(cfg, s1, more, steps[1..]);
      assert more + steps[1..] == done + steps;
    }
  }

  /** In every run each stored tick is a quote that was sent: same document, pair, number, bid
      and ask, under the quote's event id. */
  lemma StoredTicksWereSent(cfg: Settings, steps: seq<Step>)
    ensures AllBrought(Run(cfg, EMPTY, steps).db.ticks, steps)
  {
    RunBrings(cfg, EMPTY, [], steps);
    assert [] + steps == steps;
  }

  /** A restart forgets everything but the stores. */
  lemma RestartKeepsStoresOnly(cfg: Settings, s: Server, i: Instrument)
    requires Shaped(s)
    ensures var s1 := Move(cfg, s, Restart);
            && s1.db == s.db && s1.col.sessions == [] && s1.col.adapter == A.START
            && i in s1.col.active && s1.col.active[i] == None
  {
  }

  // ------------------------------------------------------------- heartbeats

  /** A session that reports itself not ready is forgotten by the adapter, and no one else is
      but the sessions that expired; it holds no pair afterwards. */
  lemma NotReadyForgets(cfg: Settings, s: Server, id: nat, conn: nat, h: Heartbeat, t: Clock, k: A.Key)
    requires FaithfulOrNew(cfg, s) && !h.ready
    ensures var s1, c := Touch(cfg, s, id, conn, t, Some(h), None), Beat(cfg, s, id, conn, h, t).col;
            && (k in c.adapter.quotes <==>
                  && k in s1.col.adapter.quotes && !(k.session == id && k.conn == conn)
                  && !SilentKey(cfg, s1.col.sessions, t.last, k))
            && (k in c.adapter.quotes ==> c.adapter.quotes[k] == s1.col.adapter.quotes[k])
            && c.sessions == Fresh(cfg, s1.col.sessions, t.last)
            && forall i: Instrument :: i in c.active && c.active[i] != Some(id)
  {
    TouchIsFaithful(cfg, s, id, conn, t, Some(h), None);
    var s1 := Touch(cfg, s, id, conn, t, Some(h), None);
    var s2 := s1.(col := s1.col.(adapter := A.Disconnect(s1.col.adapter, conn, id),
                                 active := Released(s1.col.active, id)));
    RefreshKeepsFresh(cfg, s2, t.last, k);
    forall i: Instrument
      ensures var c := Refresh(cfg, s2, t.last).col; i in c.active && c.active[i] != Some(id)
    {
      NotReadyEntries(cfg, s, id, conn, h, t);
      NotReadyGetsNothing(cfg, s2, id, t.last, i);
    }
  }

  lemma NotReadyEntries(cfg: Settings, s: Server, id: nat, conn: nat, h: Heartbeat, t: Clock)
    requires FaithfulOrNew(cfg, s) && !h.ready
    ensures forall x | x in Touch(cfg, s, id, conn, t, Some(h), None).col.sessions && x.id == id :: !x.observerReady
  {
    RefreshIsFaithful(cfg, s, t.before);
    var s1 := Refresh(cfg, s, t.before);
    var u := Updated(s1.col.sessions, id, conn, t.at, Some(h), None);
    AssignedFacts(s1.col.sessions, u);
    AssignedHolds(s1.col.sessions, u);
    var c2 := s1.col.(sessions := Assigned(s1.col.sessions, u));
    if |c2.sessions| > MAX_SESSIONS {
      WithoutFacts(c2.sessions, c2.sessions[Oldest(c2.sessions)].id);
    }
    var c3 := if |c2.sessions| > MAX_SESSIONS then EvictOldest(c2) else c2;
    ExpireKeepsMembers(cfg, c3, t.after, c3.sessions);
  }

  /** A discovery message: duplicate exactly for an id that has a raw row, failure exactly where
      something failed, and its raw row stored exactly where nothing failed before. */
  lemma DiscoveryDoesExactly(
      cfg: Settings, s: Server, eventId: nat, id: nat, conn: nat, received: int, t: Clock, fault: Fault)
    requires Shaped(s)
    ensures var (s1, answer) := Discover(cfg, s, eventId, id, conn, received, t, fault);
            && (answer == DuplicateEvent <==> Known(s.db, eventId) && fault != NoLookup)
            && (answer == Failed <==> fault == NoLookup || (!Known(s.db, eventId) && fault != Healthy))
            && answer != StandbySource && s1.db.ticks == s.db.ticks
            && s1.db.raw == s.db.raw
                 + (if !Known(s.db, eventId) && fault in {AfterRaw, AfterTick, Healthy}
                    then [RawRow(eventId, received)] else [])
            && s1.col == Touch(cfg, s, id, conn, t, None, None).col
  {
    TouchForgets(cfg, s, id, conn, t, None, None);
    KnownIsStored(s.db, eventId);
    if !Known(s.db, eventId) {
      assert RawRow(eventId, received) !in s.db.raw;
    }
  }
}

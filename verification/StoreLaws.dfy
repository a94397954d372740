/** What the stores hold after any run of ingests, failures between stores, disconnects and
    restarts. */
module StoreLaws {
  import opened Wrappers
  import opened Instruments
  import opened CollectorModel
  import opened CollectorLaws
  import A = AdapterModel
  import AL = AdapterLaws

  // ----------------------------------------- bookkeeping never adds quotes

  /** The adapter only forgot. */
  ghost predicate Forgets(a: A.State, b: A.State) {
    forall k | k in b.quotes :: k in a.quotes && b.quotes[k] == a.quotes[k]
  }

  lemma {:induction false} ExpireForgets(cfg: Settings, c: Collector, now: int, todo: seq<Session>)
    ensures Forgets(c.adapter, Expire(cfg, c, now, todo).adapter)
    decreases |todo|
  {
    if todo != [] {
      var c1 := if Expired(cfg, todo[0], now) then Forget(c, todo[0]) else c;
      ExpireForgets(cfg, c1, now, todo[1..]);
    }
  }

  lemma RefreshForgets(cfg: Settings, s: Server, now: int)
    ensures Forgets(s.col.adapter, Refresh(cfg, s, now).col.adapter)
    ensures Refresh(cfg, s, now).db == s.db
    ensures s.log <= Refresh(cfg, s, now).log
  {
    ExpireForgets(cfg, s.col, now, s.col.sessions);
  }

  lemma TouchForgets(
      cfg: Settings, s: Server, id: nat, conn: nat, t: Clock, h: Option<Heartbeat>, observed: Option<Instrument>)
    ensures var s1 := Touch(cfg, s, id, conn, t, h, observed);
            Forgets(s.col.adapter, s1.col.adapter) && s1.db == s.db && s.log <= s1.log
  {
    RefreshForgets(cfg, s, t.before);
    var s1 := Refresh(cfg, s, t.before);
    var u := Updated(s1.col.sessions, id, conn, t.at, h, observed);
    var c2 := s1.col.(sessions := Assigned(s1.col.sessions, u));
    var c3 := if |c2.sessions| > MAX_SESSIONS then EvictOldest(c2) else c2;
    assert Forgets(c2.adapter, c3.adapter);
    RefreshForgets(cfg, s1.(col := c3), t.after);
  }

  lemma GreetForgets(cfg: Settings, s: Server, m: Message, t: Clock)
    ensures var s1 := Greet(cfg, s, m, t);
            Forgets(s.col.adapter, s1.col.adapter) && s1.db == s.db && s.log <= s1.log
  {
    TouchForgets(cfg, s, m.session, m.conn, t, None, Some(m.instrument));
    RefreshForgets(cfg, Touch(cfg, s, m.session, m.conn, t, None, Some(m.instrument)), t.received);
  }

  lemma BeatForgets(cfg: Settings, s: Server, id: nat, conn: nat, h: Heartbeat, t: Clock)
    ensures var s1 := Beat(cfg, s, id, conn, h, t);
            Forgets(s.col.adapter, s1.col.adapter) && s1.db == s.db && s.log <= s1.log
  {
    TouchForgets(cfg, s, id, conn, t, Some(h), None);
    var s1 := Touch(cfg, s, id, conn, t, Some(h), None);
    var s2 := s1.(col := s1.col.(adapter := A.Disconnect(s1.col.adapter, conn, id),
                                 active := Released(s1.col.active, id)));
    RefreshForgets(cfg, s2, t.last);
  }

  // ------------------------------------------------ one raw row, one tick row

  /** Each event id has at most one raw row and at most one tick, and no tick is stored
      without its raw row. */
  ghost predicate Idempotent(db: Database) {
    && (forall j, k | 0 <= j < k < |db.raw| :: db.raw[j].id != db.raw[k].id)
    && (forall j, k | 0 <= j < k < |db.ticks| :: db.ticks[j].rawId != db.ticks[k].rawId)
    && (forall k | 0 <= k < |db.ticks| :: HasRaw(db, db.ticks[k].rawId))
  }

  lemma StoreRawFacts(db: Database, row: RawRow)
    requires Idempotent(db) && !HasRaw(db, row.id)
    ensures Idempotent(StoreRaw(db, row)) && StoreRaw(db, row) == db.(raw := db.raw + [row])
    ensures HasRaw(StoreRaw(db, row), row.id)
    ensures forall id | HasRaw(db, id) :: HasRaw(StoreRaw(db, row), id)
  {
    var db1 := db.(raw := db.raw + [row]);
    assert row !in db.raw;
    assert db1.raw[|db.raw|].id == row.id;
    forall id | HasRaw(db, id) ensures HasRaw(db1, id) {
      var k :| 0 <= k < |db.raw| && db.raw[k].id == id;
      assert db1.raw[k].id == id;
    }
  }

  lemma PipelineIsIdempotent(cfg: Settings, s: Server, e: A.Envelope, m: Message, fault: Fault)
    requires Idempotent(s.db) && !HasRaw(s.db, m.eventId) && e.eventId == m.eventId
    ensures Idempotent(Pipeline(cfg, s, e, m, fault).0.db)
    ensures Pipeline(cfg, s, e, m, fault).1.Accepted? ==> HasRaw(Pipeline(cfg, s, e, m, fault).0.db, m.eventId)
    ensures Pipeline(cfg, s, e, m, fault).1 in {Failed} || Pipeline(cfg, s, e, m, fault).1.Accepted?
    ensures forall id | HasRaw(s.db, id) :: HasRaw(Pipeline(cfg, s, e, m, fault).0.db, id)
  {
    StoreRawFacts(s.db, RawRow(m.eventId, m.observedAt));
    var (adapter, out) := A.Process(cfg.adapter, s.col.adapter, e);
    if out.Output? && out.tick.Some? {
      TickNamesItsEvent(cfg.adapter, s.col.adapter, e);
      assert forall k | 0 <= k < |s.db.ticks| :: HasRaw(s.db, s.db.ticks[k].rawId);
    }
  }

  lemma TickNamesItsEvent(c: A.Config, s: A.State, e: A.Envelope)
    requires A.TickFrom(c, s, A.Receive(e)).Some?
    ensures var t := A.TickFrom(c, s, A.Receive(e)).value;
            t.rawId == e.eventId && Some(t.key) == A.KeyOf(e) && t.sequence == A.SequenceOf(e)
  {
    AL.AcceptedFacts(c, A.Lookup(s.quotes, A.KeyOf(e)), e);
  }

  /** What an answer other than a failure guarantees. */
  ghost predicate Settled(s: Server, id: nat) {
    HasRaw(s.db, id) || Standby(id) in s.log
  }

  lemma IngestStores(cfg: Settings, s: Server, m: Message, t: Clock, fault: Fault)
    requires Shaped(s) && Idempotent(s.db)
    ensures var (s1, answer) := Ingest(cfg, s, m, t, fault);
            && Idempotent(s1.db)
            && (forall id | Settled(s, id) :: Settled(s1, id))
            && (answer != Failed ==> Settled(s1, m.eventId))
  {
    GreetForgets(cfg, s, m, t);
    var s1 := Greet(cfg, s, m, t);
    if m.instrument !in s1.col.active || s1.col.active[m.instrument] != Some(m.session) {
      assert (s1.log + [Standby(m.eventId)])[|s1.log|] == Standby(m.eventId);
    } else if !HasRaw(s1.db, m.eventId) && !fault.NoLookup? && !fault.NotProcessed? {
      var e := EnvelopeOf(m, t.received, LastSequence(s1.db.ticks, m.doc, m.instrument));
      var s2 := s1.(log := s1.log + [Normalized(m.instrument, m.session)]);
      PipelineIsIdempotent(cfg, s2, e, m, fault);
      assert s1.log <= s2.log;
    }
  }

  lemma DiscoverStores(
      cfg: Settings, s: Server, eventId: nat, id: nat, conn: nat, received: int, t: Clock, fault: Fault)
    requires Idempotent(s.db)
    ensures var (s1, answer) := Discover(cfg, s, eventId, id, conn, received, t, fault);
            && Idempotent(s1.db)
            && (forall id | Settled(s, id) :: Settled(s1, id))
            && (answer != Failed ==> Settled(s1, eventId))
  {
    TouchForgets(cfg, s, id, conn, t, None, None);
    if !HasRaw(s.db, eventId) {
      StoreRawFacts(s.db, RawRow(eventId, received));
    }
  }

  lemma MoveStores(cfg: Settings, s: Server, a: Step)
    requires Shaped(s) && Idempotent(s.db)
    ensures Idempotent(Move(cfg, s, a).db)
    ensures forall id | Settled(s, id) :: Settled(Move(cfg, s, a), id)
  {
    match a {
      case IngestQuote(m, t, fault) => IngestStores(cfg, s, m, t, fault);
      case IngestHeartbeat(id, conn, h, t) => BeatForgets(cfg, s, id, conn, h, t);
      case IngestDiscovery(eventId, id, conn, received, t, fault) =>
        DiscoverStores(cfg, s, eventId, id, conn, received, t, fault);
      case Poll(now) => RefreshForgets(cfg, s, now);
      case Restart =>
    }
  }

  lemma {:induction false} RunStores(cfg: Settings, s: Server, steps: seq<Step>)
    requires Shaped(s) && Idempotent(s.db)
    ensures Idempotent(Run(cfg, s, steps).db)
    ensures forall id | Settled(s, id) :: Settled(Run(cfg, s, steps), id)
    decreases |steps|
  {
    if steps != [] {
      MoveStores(cfg, s, steps[0]);
      MoveShapes(cfg, s, steps[0]);
      RunStores(cfg, Move(cfg, s, steps[0]), steps[1..]);
    }
  }

  /** In every run each event id yields at most one raw row and at most one tick row, and
      raw input is stored before its tick. */
  lemma AtMostOneRowPerEvent(cfg: Settings, steps: seq<Step>)
    ensures Idempotent(Run(cfg, EMPTY, steps).db)
  {
    RunStores(cfg, EMPTY, steps);
  }

  // ---------------------------------------------- stored sequences increase

  lemma {:induction false} LastSequenceIsMax(ticks: seq<TickRow>, doc: nat, i: Instrument)
    ensures forall k | 0 <= k < |ticks| && ticks[k].doc == doc && ticks[k].instrument == i && ticks[k].sequence.Some? ::
              LastSequence(ticks, doc, i).Some? && ticks[k].sequence.value <= LastSequence(ticks, doc, i).value
    ensures LastSequence(ticks, doc, i).Some? ==>
              exists k :: 0 <= k < |ticks| && ticks[k].doc == doc && ticks[k].instrument == i
                && ticks[k].sequence == LastSequence(ticks, doc, i)
  {
    if ticks != [] {
      var t := ticks[..|ticks| - 1];
      LastSequenceIsMax(t, doc, i);
      assert forall k | 0 <= k < |t| :: ticks[k] == t[k];
      if LastSequence(t, doc, i).Some? {
        var k :| 0 <= k < |t| && t[k].doc == doc && t[k].instrument == i && t[k].sequence == LastSequence(t, doc, i);
        assert ticks[k] == t[k];
      }
    }
  }

  lemma LastSequenceSnoc(ticks: seq<TickRow>, row: TickRow, doc: nat, i: Instrument)
    ensures LastSequence(ticks + [row], doc, i) ==
              var rest := LastSequence(ticks, doc, i);
              if row.doc == doc && row.instrument == i && row.sequence.Some?
                 && (rest == None || rest.value < row.sequence.value)
              then row.sequence else rest
  {
    assert (ticks + [row])[..|ticks|] == ticks;
  }

  /** Per document and pair, in storage order. */
  ghost predicate Increasing(ticks: seq<TickRow>) {
    && (forall k | 0 <= k < |ticks| :: ticks[k].sequence.Some?)
    && (forall j, k | 0 <= j < k < |ticks| && ticks[j].doc == ticks[k].doc
            && ticks[j].instrument == ticks[k].instrument ::
          ticks[j].sequence.value < ticks[k].sequence.value)
  }

  /** Any live adapter sequence is at least the stored maximum of its document and pair. */
  ghost predicate AheadOfStore(s: Server) {
    forall k | k in s.col.adapter.quotes ::
      && s.col.adapter.quotes[k].sequence.Some?
      && var stored := LastSequence(s.db.ticks, k.session, k.instrument);
         stored.Some? ==> stored.value <= s.col.adapter.quotes[k].sequence.value
  }

  /** A live quote sits at the one key its document has. */
  ghost predicate Sequenced(connOf: nat -> nat, s: Server) {
    && Increasing(s.db.ticks)
    && AheadOfStore(s)
    && forall k | k in s.col.adapter.quotes :: k.conn == connOf(k.session)
  }

  lemma ForgettingKeepsSequenced(connOf: nat -> nat, s: Server, s1: Server)
    requires Sequenced(connOf, s) && Forgets(s.col.adapter, s1.col.adapter) && s1.db.ticks == s.db.ticks
    ensures Sequenced(connOf, s1)
  {
  }

  /** The adapter's answer to a displayed quote keeps its live sequence ahead, and what it
      publishes is beyond everything stored. */
  lemma ProcessStaysAhead(connOf: nat -> nat, cfg: Settings, s: Server, m: Message, received: int)
    requires Sequenced(connOf, s) && m.session == m.doc && m.conn == connOf(m.session)
    ensures var e := EnvelopeOf(m, received, LastSequence(s.db.ticks, m.doc, m.instrument));
            var s1 := s.(col := s.col.(adapter := A.Process(cfg.adapter, s.col.adapter, e).0));
            var t := A.TickFrom(cfg.adapter, s.col.adapter, A.Receive(e));
            && Sequenced(connOf, s1)
            && (t.Some? ==>
                  && t.value.sequence.Some? && t.value.key == A.Key(m.conn, m.session, m.instrument)
                  && t.value.key in s1.col.adapter.quotes
                  && s1.col.adapter.quotes[t.value.key].sequence == t.value.sequence
                  && var stored := LastSequence(s.db.ticks, m.doc, m.instrument);
                     stored.Some? ==> stored.value < t.value.sequence.value)
  {
    var e := EnvelopeOf(m, received, LastSequence(s.db.ticks, m.doc, m.instrument));
    var prev := A.Lookup(s.col.adapter.quotes, A.KeyOf(e));
    if !A.Raises(e) && A.Assess(cfg.adapter, prev, e).Accept? {
      AL.AcceptedFacts(cfg.adapter, prev, e);
      var q := A.Assess(cfg.adapter, prev, e).quote;
      if A.Admit(cfg.adapter, prev, e, q).Publish? {
        AL.PublishedFacts(cfg.adapter, prev, e, q);
      }
      assert A.PersistedRule(e, prev) == None;
    }
  }

  lemma StoringKeepsSequenced(connOf: nat -> nat, s: Server, row: TickRow)
    requires Sequenced(connOf, s) && row.sequence.Some?
    requires var stored := LastSequence(s.db.ticks, row.doc, row.instrument);
             stored.Some? ==> stored.value < row.sequence.value
    requires var k := A.Key(connOf(row.doc), row.doc, row.instrument);
             k in s.col.adapter.quotes && s.col.adapter.quotes[k].sequence == row.sequence
    ensures Sequenced(connOf, s.(db := s.db.(ticks := s.db.ticks + [row])))
  {
    LastSequenceIsMax(s.db.ticks, row.doc, row.instrument);
    var ticks := s.db.ticks + [row];
    forall k | k in s.col.adapter.quotes
      ensures var stored := LastSequence(ticks, k.session, k.instrument);
              stored.Some? ==> stored.value <= s.col.adapter.quotes[k].sequence.value
    {
      LastSequenceSnoc(s.db.ticks, row, k.session, k.instrument);
    }
  }

  lemma PipelineStaysSequenced(connOf: nat -> nat, cfg: Settings, s: Server, m: Message, received: int, fault: Fault)
    requires Sequenced(connOf, s) && m.session == m.doc && m.conn == connOf(m.session)
    ensures var e := EnvelopeOf(m, received, LastSequence(s.db.ticks, m.doc, m.instrument));
            Sequenced(connOf, Pipeline(cfg, s, e, m, fault).0)
  {
    ProcessStaysAhead(connOf, cfg, s, m, received);
    var e := EnvelopeOf(m, received, LastSequence(s.db.ticks, m.doc, m.instrument));
    var (adapter, out) := A.Process(cfg.adapter, s.col.adapter, e);
    var s1 := s.(col := s.col.(adapter := adapter));
    var s2 := s1.(db := StoreRaw(s1.db, RawRow(m.eventId, m.observedAt)));
    ForgettingKeepsSequenced(connOf, s1, s2);
    if out.Output? && out.tick.Some? {
      StoringKeepsSequenced(connOf, s2, RowOf(m, out.tick.value));
    }
  }

  lemma IngestStaysSequenced(connOf: nat -> nat, cfg: Settings, s: Server, m: Message, t: Clock, fault: Fault)
    requires Shaped(s) && Sequenced(connOf, s) && m.session == m.doc && m.conn == connOf(m.session)
    ensures Sequenced(connOf, Ingest(cfg, s, m, t, fault).0)
  {
    GreetForgets(cfg, s, m, t);
    var s1 := Greet(cfg, s, m, t);
    ForgettingKeepsSequenced(connOf, s, s1);
    if m.instrument !in s1.col.active || s1.col.active[m.instrument] != Some(m.session) {
    } else if !HasRaw(s1.db, m.eventId) && !fault.NoLookup? && !fault.NotProcessed? {
      PipelineStaysSequenced(connOf, cfg, s1.(log := s1.log + [Normalized(m.instrument, m.session)]), m, t.received, fault);
    }
  }

  lemma MoveStaysSequenced(connOf: nat -> nat, cfg: Settings, s: Server, a: Step)
    requires Shaped(s) && Sequenced(connOf, s) && Identified(connOf, a)
    ensures Sequenced(connOf, Move(cfg, s, a))
  {
    match a {
      case IngestQuote(m, t, fault) => IngestStaysSequenced(connOf, cfg, s, m, t, fault);
      case IngestHeartbeat(id, conn, h, t) => BeatForgets(cfg, s, id, conn, h, t);
      case IngestDiscovery(eventId, id, conn, received, t, fault) => TouchForgets(cfg, s, id, conn, t, None, None);
      case Poll(now) => RefreshForgets(cfg, s, now);
      case Restart =>
    }
  }

  lemma {:induction false} RunStaysSequenced(connOf: nat -> nat, cfg: Settings, s: Server, steps: seq<Step>)
    requires Shaped(s) && Sequenced(connOf, s) && forall a | a in steps :: Identified(connOf, a)
    ensures Sequenced(connOf, Run(cfg, s, steps))
    decreases |steps|
  {
    if steps != [] {
      MoveStaysSequenced(connOf, cfg, s, steps[0]);
      MoveShapes(cfg, s, steps[0]);
      RunStaysSequenced(connOf, cfg, Move(cfg, s, steps[0]), steps[1..]);
    }
  }

  /** End to end: across lost answers, retries, disconnects, evictions, failed stores and
      restarts, the stored ticks of each document and pair have strictly increasing
      observation sequences in storage order. */
  lemma StoredSequencesIncrease(connOf: nat -> nat, cfg: Settings, steps: seq<Step>)
    requires forall a | a in steps :: Identified(connOf, a)
    ensures Increasing(Run(cfg, EMPTY, steps).db.ticks)
  {
    RunStaysSequenced(connOf, cfg, EMPTY, steps);
  }
}

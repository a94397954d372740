/** Why a document must keep its connection: with a second one the order of stored
    sequences is lost. */
module DocumentIdentity {
  import opened Wrappers
  import opened Instruments
  import opened CollectorModel
  import opened CollectorLaws
  import opened StoreLaws
  import opened SingleSource
  import A = AdapterModel
  import AL = AdapterLaws

  /** The live sequence of a document's quote over this connection. */
  function LiveSequence(s: Server, doc: nat, conn: nat): Option<int> {
    var key := A.Key(conn, doc, EURUSD);
    if key in s.col.adapter.quotes then s.col.adapter.quotes[key].sequence else None
  }

  ghost predicate Quiet(s: Server) {
    && AL.AllCovered(s.col.adapter)
    && forall k | k in s.col.adapter.quotes ::
         s.col.adapter.quotes[k].orderTime == 0 && s.col.adapter.quotes[k].sequence.Some?
  }

  /** What the adapter does with a sample beyond the live sequence or, without one, the stored one. */
  lemma SampleProcessed(cfg: A.Config, a: A.State, doc: nat, id: nat, conn: nat, sequence: int, stored: Option<int>)
    requires AL.AllCovered(a) && sequence >= 1 && cfg.maxDelay >= 0
    requires forall k | k in a.quotes :: a.quotes[k].orderTime == 0 && a.quotes[k].sequence.Some?
    requires var key := A.Key(conn, doc, EURUSD);
             if key in a.quotes then a.quotes[key].sequence.value < sequence
             else stored.Some? ==> stored.value < sequence
    ensures var e := EnvelopeOf(Sample(doc, id, conn, sequence), 0, stored);
            var t := A.TickFrom(cfg, a, A.Receive(e));
            && t.Some? && t.value.rawId == id && t.value.key == A.Key(conn, doc, EURUSD)
            && t.value.sequence == Some(sequence) && t.value.bid == PRICE && t.value.ask == PRICE
            && A.Process(cfg, a, e).0.quotes == a.quotes[A.Key(conn, doc, EURUSD) := A.Quote(PRICE, PRICE, 0, 0, Some(sequence))]
  {
    var e := EnvelopeOf(Sample(doc, id, conn, sequence), 0, stored);
    var seen := A.Purge(cfg, a.seen, 0);
    AL.PurgeFacts(cfg, a.seen, 0);
    forall x | x in seen ensures x.id != AL.IdentityWith(e, PRICE, PRICE) {
      assert AL.Covered(a, x);
    }
    AL.PublishesExactlyWhen(cfg, a, e, PRICE, PRICE);
    TickNamesItsEvent(cfg, a, e);
    AL.PublishedTick(cfg, a, e);
  }

  function SampleRow(id: nat, doc: nat, sequence: int): TickRow {
    TickRow(id, doc, EURUSD, Some(sequence), PRICE, PRICE)
  }

  /** A sample was stored, and only its own connection's live sequence changed. */
  ghost predicate Stored(s: Server, s1: Server, doc: nat, id: nat, conn: nat, sequence: int) {
    && |s1.col.sessions| == 1 && OneSource(s1, s1.col.sessions[0]) && s1.col.sessions[0].id == doc && Quiet(s1)
    && s1.db.ticks == s.db.ticks + [SampleRow(id, doc, sequence)]
    && (forall x :: HasRaw(s1.db, x) ==> HasRaw(s.db, x) || x == id)
    && LiveSequence(s1, doc, conn) == Some(sequence)
    && forall c | c != conn :: LiveSequence(s1, doc, c) == LiveSequence(s, doc, c)
  }

  ghost predicate Known(s: Server, doc: nat, conn: nat, below: int) {
    var live, stored := LiveSequence(s, doc, conn), LastSequence(s.db.ticks, doc, EURUSD);
    if live.Some? then live.value < below else stored.Some? ==> stored.value < below
  }

  /** From the greeting on. */
  lemma PipelineStores(cfg: Settings, g: Server, doc: nat, id: nat, conn: nat, sequence: int)
    requires Shaped(g) && |g.col.sessions| == 1 && OneSource(g, g.col.sessions[0]) && g.col.sessions[0].id == doc && Quiet(g)
    requires cfg.adapter.maxDelay >= 0 && sequence >= 1 && Known(g, doc, conn, sequence) && !HasRaw(g.db, id)
    ensures var e := EnvelopeOf(Sample(doc, id, conn, sequence), 0, LastSequence(g.db.ticks, doc, EURUSD));
            Stored(g, Pipeline(cfg, g, e, Sample(doc, id, conn, sequence), Healthy).0, doc, id, conn, sequence)
  {
    var m := Sample(doc, id, conn, sequence);
    var stored := LastSequence(g.db.ticks, doc, EURUSD);
    var e := EnvelopeOf(m, 0, stored);
    SampleProcessed(cfg.adapter, g.col.adapter, doc, id, conn, sequence, stored);
    AL.OrderedStepKeepsCovered(cfg.adapter, g.col.adapter, A.Receive(e));
    PipelineShows(cfg, g, e, m, Healthy);
    PublishedIsStored(cfg, g, e, m);
  }

  lemma PublishedIsStored(cfg: Settings, s: Server, e: A.Envelope, m: Message)
    requires A.TickFrom(cfg.adapter, s.col.adapter, A.Receive(e)).Some?
    ensures var s1 := Pipeline(cfg, s, e, m, Healthy).0;
            && s1.db.ticks == s.db.ticks + [RowOf(m, A.TickFrom(cfg.adapter, s.col.adapter, A.Receive(e)).value)]
            && forall x :: HasRaw(s1.db, x) ==> HasRaw(s.db, x) || x == m.eventId
  {
    var s1 := Pipeline(cfg, s, e, m, Healthy).0;
    assert s1.db.raw == s.db.raw || s1.db.raw == s.db.raw + [RawRow(m.eventId, m.observedAt)];
  }

  lemma SampleStored(cfg: Settings, s: Server, u: Session, doc: nat, id: nat, conn: nat, sequence: int)
    requires Shaped(s) && (s == EMPTY || (OneSource(s, u) && u.id == doc)) && Quiet(s)
    requires cfg.staleAfter >= 0 && cfg.expiry >= 0 && cfg.adapter.maxDelay >= 0 && sequence >= 1
    requires Known(s, doc, conn, sequence) && !HasRaw(s.db, id)
    ensures Stored(s, Ingest(cfg, s, Sample(doc, id, conn, sequence), AT_ONCE, Healthy).0, doc, id, conn, sequence)
  {
    var m := Sample(doc, id, conn, sequence);
    GreetedHolds(cfg, s, u, m);
    var g := Greet(cfg, s, m, AT_ONCE);
    var g1 := g.(log := g.log + [Normalized(EURUSD, doc)]);
    assert Known(g1, doc, conn, sequence) && OneSource(g1, g1.col.sessions[0]);
    PipelineStores(cfg, g1, doc, id, conn, sequence);
    IngestIsPiped(cfg, s, m, AT_ONCE);
  }

  lemma IngestIsPiped(cfg: Settings, s: Server, m: Message, t: Clock)
    requires Shaped(s)
    requires var g := Greet(cfg, s, m, t);
             m.instrument in g.col.active && g.col.active[m.instrument] == Some(m.session) && !HasRaw(g.db, m.eventId)
    ensures var g := Greet(cfg, s, m, t);
            Ingest(cfg, s, m, t, Healthy)
            == Pipeline(cfg, g.(log := g.log + [Normalized(m.instrument, m.session)]),
                        EnvelopeOf(m, t.received, LastSequence(g.db.ticks, m.doc, m.instrument)), m, Healthy)
  {
  }

  /** A document, two different connections, three events, and two sequences. */
  datatype Plan = Plan(doc: nat, c1: nat, c2: nat, a: nat, b: nat, c: nat, n: int, k: int)

  predicate Possible(p: Plan) {
    p.c1 != p.c2 && p.a != p.b && p.a != p.c && p.b != p.c && 1 <= p.n < p.k
  }

  /** Number n over the first connection, k over the second, and k over the first again. */
  function First(p: Plan): Step { IngestQuote(Sample(p.doc, p.a, p.c1, p.n), AT_ONCE, Healthy) }

  function Second(p: Plan): Step { IngestQuote(Sample(p.doc, p.b, p.c2, p.k), AT_ONCE, Healthy) }

  function Third(p: Plan): Step { IngestQuote(Sample(p.doc, p.c, p.c1, p.k), AT_ONCE, Healthy) }

  predicate Lenient(cfg: Settings) {
    cfg.staleAfter >= 0 && cfg.expiry >= 0 && cfg.adapter.maxDelay >= 0
  }

  lemma FirstStored(cfg: Settings, p: Plan)
    requires Lenient(cfg) && Possible(p)
    ensures Stored(EMPTY, Move(cfg, EMPTY, First(p)), p.doc, p.a, p.c1, p.n)
  {
    SampleStored(cfg, EMPTY, Session(0, 0, 0, false, map[]), p.doc, p.a, p.c1, p.n);
  }

  lemma SecondStored(cfg: Settings, p: Plan, s1: Server)
    requires Lenient(cfg) && Possible(p) && Shaped(s1) && Stored(EMPTY, s1, p.doc, p.a, p.c1, p.n)
    ensures Stored(s1, Move(cfg, s1, Second(p)), p.doc, p.b, p.c2, p.k)
  {
    var row := SampleRow(p.a, p.doc, p.n);
    LastSequenceSnoc([], row, p.doc, EURUSD);
    assert [] + [row] == s1.db.ticks;
    assert LiveSequence(s1, p.doc, p.c2) == LiveSequence(EMPTY, p.doc, p.c2) == None;
    SampleStored(cfg, s1, s1.col.sessions[0], p.doc, p.b, p.c2, p.k);
  }

  lemma ThirdRepeats(cfg: Settings, p: Plan, s1: Server, s2: Server)
    requires Lenient(cfg) && Possible(p) && Shaped(s2)
    requires Stored(EMPTY, s1, p.doc, p.a, p.c1, p.n) && Stored(s1, s2, p.doc, p.b, p.c2, p.k)
    ensures Stored(s2, Move(cfg, s2, Third(p)), p.doc, p.c, p.c1, p.k)
  {
    assert LiveSequence(s2, p.doc, p.c1) == Some(p.n);
    SampleStored(cfg, s2, s2.col.sessions[0], p.doc, p.c, p.c1, p.k);
  }

  lemma StoredTwice(p: Plan, s1: Server, s2: Server, s3: Server)
    requires Stored(EMPTY, s1, p.doc, p.a, p.c1, p.n) && Stored(s1, s2, p.doc, p.b, p.c2, p.k)
    requires Stored(s2, s3, p.doc, p.c, p.c1, p.k)
    ensures s3.db.ticks == Repeated(p) && !Increasing(s3.db.ticks)
  {
    var ticks := s3.db.ticks;
    assert ticks[1].sequence == ticks[2].sequence;
  }

  function Repeated(p: Plan): seq<TickRow> {
    [SampleRow(p.a, p.doc, p.n), SampleRow(p.b, p.doc, p.k),
     SampleRow(p.c, p.doc, p.k)]
  }

  /** For every document and every two different connections: numbers that increase over each
      connection are stored twice, so the order of stored sequences needs a document to keep
      its connection. */
  lemma TwoConnectionsRepeatASequence(cfg: Settings, p: Plan)
    requires Lenient(cfg) && Possible(p)
    ensures var ticks := Run(cfg, EMPTY, [First(p), Second(p), Third(p)]).db.ticks;
            ticks == Repeated(p) && !Increasing(ticks)
  {
    RunOfThree(cfg, First(p), Second(p), Third(p));
    var s1 := Move(cfg, EMPTY, First(p));
    FirstStored(cfg, p);
    SecondStored(cfg, p, s1);
    var s2 := Move(cfg, s1, Second(p));
    ThirdRepeats(cfg, p, s1, s2);
    StoredTwice(p, s1, s2, Move(cfg, s2, Third(p)));
  }

  lemma RunOfThree(cfg: Settings, a: Step, b: Step, c: Step)
    ensures Shaped(EMPTY) && Shaped(Move(cfg, EMPTY, a)) && Shaped(Move(cfg, Move(cfg, EMPTY, a), b))
    ensures Run(cfg, EMPTY, [a, b, c]) == Move(cfg, Move(cfg, Move(cfg, EMPTY, a), b), c)
  {
    var s1 := Move(cfg, EMPTY, a);
    MoveShapes(cfg, EMPTY, a);
    var s2 := Move(cfg, s1, b);
    MoveShapes(cfg, s1, b);
    MoveShapes(cfg, s2, c);
    assert [a, b, c][1..] == [b, c] && [b, c][1..] == [c] && [c][1..] == [];
    assert Run(cfg, s2, [c]) == Move(cfg, s2, c);
    assert Run(cfg, s1, [b, c]) == Run(cfg, s2, [c]);
  }
}

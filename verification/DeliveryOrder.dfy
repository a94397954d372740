/** Order across the whole path: when a document's quotes of a pair are enqueued in their
    numbered order, no run of lost answers, retries, crashes, restarts and requests handled
    late makes the adapter find the one out for delivery out of order; it can only be a repeat. */
module DeliveryOrder {
  import opened Wrappers
  import opened Instruments
  import opened Delivery
  import O = OutboxModel
  import OW = OutboxLaws
  import C = CollectorModel
  import SL = StoreLaws
  import A = AdapterModel
  import AL = AdapterLaws

  predicate IsQuote(e: O.Event<Body>, doc: nat, i: Instrument) {
    e.body.Quote? && e.body.message.doc == doc && e.body.message.instrument == i
      && e.body.message.sequence.Some?
  }

  function Number(e: O.Event<Body>): int
    requires e.body.Quote? && e.body.message.sequence.Some?
  {
    e.body.message.sequence.value
  }

  /** Along the list, the quotes of each document and pair carry increasing numbers. */
  ghost predicate Numbered(s: seq<O.Event<Body>>) {
    forall doc, i, j, k | 0 <= j < k < |s| && IsQuote(s[j], doc, i) && IsQuote(s[k], doc, i) ::
      Number(s[j]) < Number(s[k])
  }

  /** Nothing the collector knows or stored of this document and pair is beyond n. */
  ghost predicate UpTo(s: C.Server, doc: nat, i: Instrument, n: int) {
    && (forall k | k in s.col.adapter.quotes && k.session == doc && k.instrument == i
          && s.col.adapter.quotes[k].sequence.Some? ::
          s.col.adapter.quotes[k].sequence.value <= n)
    && (var stored := C.LastSequence(s.db.ticks, doc, i); stored.Some? ==> stored.value <= n)
  }

  // ----------------------------------------------------- one collector handler

  lemma ForgettingKeepsUpTo(s: C.Server, s1: C.Server, doc: nat, i: Instrument, n: int)
    requires UpTo(s, doc, i, n) && SL.Forgets(s.col.adapter, s1.col.adapter) && s1.db.ticks == s.db.ticks
    ensures UpTo(s1, doc, i, n)
  {
  }

  /** A quote of another document or pair, or one within the bound, keeps the bound. */
  ghost predicate Within(m: C.Message, doc: nat, i: Instrument, n: int) {
    m.doc == doc && m.instrument == i ==> m.sequence.Some? && m.sequence.value <= n
  }

  lemma ProcessKeepsUpTo(
      cfg: C.Settings, s: C.Server, m: C.Message, received: int, persisted: Option<int>, doc: nat, i: Instrument, n: int)
    requires UpTo(s, doc, i, n) && m.session == m.doc && Within(m, doc, i, n)
    ensures var e := C.EnvelopeOf(m, received, persisted);
            var a := A.Process(cfg.adapter, s.col.adapter, e);
            && UpTo(s.(col := s.col.(adapter := a.0)), doc, i, n)
            && (a.1.Output? && a.1.tick.Some? ==>
                  a.1.tick.value.sequence == m.sequence && a.1.tick.value.key.instrument == m.instrument)
  {
    var e := C.EnvelopeOf(m, received, persisted);
    var prev := A.Lookup(s.col.adapter.quotes, A.KeyOf(e));
    if !A.Raises(e) && A.Assess(cfg.adapter, prev, e).Accept? {
      AL.AcceptedFacts(cfg.adapter, prev, e);
    }
  }

  lemma PipelineKeepsUpTo(
      cfg: C.Settings, s: C.Server, m: C.Message, received: int, persisted: Option<int>, fault: C.Fault,
      doc: nat, i: Instrument, n: int)
    requires UpTo(s, doc, i, n) && m.session == m.doc && Within(m, doc, i, n)
    ensures UpTo(C.Pipeline(cfg, s, C.EnvelopeOf(m, received, persisted), m, fault).0, doc, i, n)
  {
    ProcessKeepsUpTo(cfg, s, m, received, persisted, doc, i, n);
    var e := C.EnvelopeOf(m, received, persisted);
    var (adapter, out) := A.Process(cfg.adapter, s.col.adapter, e);
    var s1 := s.(col := s.col.(adapter := adapter));
    var s2 := s1.(db := C.StoreRaw(s1.db, C.RawRow(m.eventId, m.observedAt)));
    ForgettingKeepsUpTo(s1, s2, doc, i, n);
    if out.Output? && out.tick.Some? {
      SL.LastSequenceSnoc(s2.db.ticks, C.RowOf(m, out.tick.value), doc, i);
    }
  }

  lemma IngestKeepsUpTo(
      cfg: C.Settings, s: C.Server, m: C.Message, t: C.Clock, fault: C.Fault, doc: nat, i: Instrument, n: int)
    requires C.Shaped(s) && UpTo(s, doc, i, n) && m.session == m.doc && Within(m, doc, i, n)
    ensures UpTo(C.Ingest(cfg, s, m, t, fault).0, doc, i, n)
  {
    SL.GreetForgets(cfg, s, m, t);
    var s1 := C.Greet(cfg, s, m, t);
    ForgettingKeepsUpTo(s, s1, doc, i, n);
    if m.instrument !in s1.col.active || s1.col.active[m.instrument] != Some(m.session) {
    } else if !C.HasRaw(s1.db, m.eventId) && !fault.NoLookup? && !fault.NotProcessed? {
      var s2 := s1.(log := s1.log + [C.Normalized(m.instrument, m.session)]);
      PipelineKeepsUpTo(cfg, s2, m, t.received, C.LastSequence(s1.db.ticks, m.doc, m.instrument), fault, doc, i, n);
    }
  }

  /** What other documents, heartbeats and restarts do keeps our bound. */
  lemma ElsewhereKeepsUpTo(u: Setup, s: C.Server, a: C.Step, doc: nat, i: Instrument, n: int)
    requires C.Shaped(s) && Exclusive(u, Elsewhere(a)) && doc in u.mine && UpTo(s, doc, i, n)
    ensures UpTo(C.Move(u.cfg, s, a), doc, i, n)
  {
    match a {
      case IngestQuote(m, t, fault) => IngestKeepsUpTo(u.cfg, s, m, t, fault, doc, i, n);
      case IngestHeartbeat(id, conn, h, t) =>
        SL.BeatForgets(u.cfg, s, id, conn, h, t);
        if C.Complete(h.targets) { ForgettingKeepsUpTo(s, C.Move(u.cfg, s, a), doc, i, n); }
      case IngestDiscovery(eventId, id, conn, received, t, fault) =>
        SL.TouchForgets(u.cfg, s, id, conn, t, None, None);
        ForgettingKeepsUpTo(s, C.Move(u.cfg, s, a), doc, i, n);
      case Poll(now) =>
        SL.RefreshForgets(u.cfg, s, now);
        ForgettingKeepsUpTo(s, C.Move(u.cfg, s, a), doc, i, n);
      case Restart =>
    }
  }

  lemma HandleKeepsUpTo(
      u: Setup, s: C.Server, e: O.Event<Body>, t: C.Clock, received: int, fault: C.Fault,
      doc: nat, i: Instrument, n: int)
    requires C.Shaped(s) && Wrapped(u, e) && UpTo(s, doc, i, n)
    requires IsQuote(e, doc, i) ==> Number(e) <= n
    ensures UpTo(Handle(u.cfg, s, e.id, e.body, t, received, fault).0, doc, i, n)
  {
    match e.body {
      case Quote(m) => IngestKeepsUpTo(u.cfg, s, m, t, fault, doc, i, n);
      case Frame(session, conn) =>
        SL.TouchForgets(u.cfg, s, session, conn, t, None, None);
        ForgettingKeepsUpTo(s, Handle(u.cfg, s, e.id, e.body, t, received, fault).0, doc, i, n);
    }
  }

  // --------------------------------------------------------------- invariant

  /** Above every number produced so far for this document and pair. */
  ghost predicate Above(s: seq<O.Event<Body>>, doc: nat, i: Instrument, n: int) {
    forall k | 0 <= k < |s| && IsQuote(s[k], doc, i) :: Number(s[k]) < n
  }

  /** The collector is behind every number still to come, and behind or at every pending one. */
  ghost predicate Behind(u: Setup, out: O.World<Body>, server: C.Server) {
    && (forall doc, i, n | doc in u.mine && Above(out.hist.produced, doc, i, n) :: UpTo(server, doc, i, n))
    && (forall doc, i, k | doc in u.mine && 0 <= k < |out.events| && IsQuote(out.events[k], doc, i) ::
          UpTo(server, doc, i, Number(out.events[k])))
  }

  /** Pending events were produced, with the same body. */
  ghost predicate Known(out: O.World<Body>) {
    forall k | 0 <= k < |out.events| :: HasBody(out.hist.produced, out.events[k].body)
  }

  ghost predicate HasBody(s: seq<O.Event<Body>>, body: Body) {
    exists j :: 0 <= j < |s| && s[j].body == body
  }

  /** Whatever was sent out was produced, with the same body. */
  ghost predicate Said(out: O.World<Body>) {
    forall k | 0 <= k < |out.hist.delivered| :: HasBody(out.hist.produced, out.hist.delivered[k].body)
  }

  /** Whatever was sent out is numbered at or below everything pending of its document and pair. */
  ghost predicate Trailing(out: O.World<Body>) {
    forall doc, i, j, k | 0 <= j < |out.hist.delivered| && 0 <= k < |out.events|
        && IsQuote(out.hist.delivered[j], doc, i) && IsQuote(out.events[k], doc, i) ::
      Number(out.hist.delivered[j]) <= Number(out.events[k])
  }

  ghost predicate InOrder(u: Setup, w: World) {
    && Known(w.out) && Said(w.out)
    && (Numbered(w.out.hist.produced) ==> Numbered(w.out.events) && Trailing(w.out) && Behind(u, w.out, w.server))
  }

  lemma BodyIsAbove(s: seq<O.Event<Body>>, e: O.Event<Body>, doc: nat, i: Instrument, n: int)
    requires HasBody(s, e.body) && Above(s, doc, i, n) && IsQuote(e, doc, i)
    ensures Number(e) < n
  {
    var j :| 0 <= j < |s| && s[j].body == e.body;
    assert IsQuote(s[j], doc, i);
  }

  lemma KnownIsAbove(out: O.World<Body>, doc: nat, i: Instrument, n: int)
    requires Known(out) && Above(out.hist.produced, doc, i, n)
    ensures Above(out.events, doc, i, n)
  {
    forall k | 0 <= k < |out.events| && IsQuote(out.events[k], doc, i)
      ensures Number(out.events[k]) < n
    {
      BodyIsAbove(out.hist.produced, out.events[k], doc, i, n);
    }
  }

  // ----------------------------------------------------------------- enqueue

  lemma ProducedSnoc(s: seq<O.Event<Body>>, e: O.Event<Body>)
    requires Numbered(s + [e])
    ensures Numbered(s)
    ensures forall doc, i | IsQuote(e, doc, i) :: Above(s, doc, i, Number(e))
    ensures forall doc, i, n | Above(s + [e], doc, i, n) :: Above(s, doc, i, n)
  {
    var t := s + [e];
    assert forall k | 0 <= k < |s| :: t[k] == s[k];
    assert t[|s|] == e;
  }

  lemma NumberedSnoc(s: seq<O.Event<Body>>, e: O.Event<Body>)
    requires Numbered(s) && forall doc, i | IsQuote(e, doc, i) :: Above(s, doc, i, Number(e))
    ensures Numbered(s + [e])
  {
  }

  lemma EnqueueKnows(u: Setup, w: World, e: O.Event<Body>)
    requires Shaped(w) && Known(w.out) && Said(w.out)
    ensures Known(O.DoEnqueue(u.maxSize, w.out, e)) && Said(O.DoEnqueue(u.maxSize, w.out, e))
  {
    var out1 := O.DoEnqueue(u.maxSize, w.out, e);
    forall k | 0 <= k < |out1.events|
      ensures HasBody(out1.hist.produced, out1.events[k].body)
    {
      HasBodySnoc(w.out.hist.produced, e, out1.events[k].body);
    }
    forall k | 0 <= k < |out1.hist.delivered|
      ensures HasBody(out1.hist.produced, out1.hist.delivered[k].body)
    {
      HasBodySnoc(w.out.hist.produced, e, out1.hist.delivered[k].body);
    }
  }

  lemma HasBodySnoc(s: seq<O.Event<Body>>, e: O.Event<Body>, body: Body)
    ensures HasBody(s + [e], body) <==> HasBody(s, body) || e.body == body
  {
    var t := s + [e];
    assert t[|s|] == e;
    if HasBody(s, body) {
      var j :| 0 <= j < |s| && s[j].body == body;
      assert t[j].body == body;
    }
  }

  lemma EnqueueKeepsTrailing(u: Setup, w: World, e: O.Event<Body>)
    requires Shaped(w) && Said(w.out) && Trailing(w.out) && Numbered(w.out.hist.produced + [e])
    ensures Trailing(O.DoEnqueue(u.maxSize, w.out, e))
  {
    var out1 := O.DoEnqueue(u.maxSize, w.out, e);
    ProducedSnoc(w.out.hist.produced, e);
    forall doc, i, j, k | 0 <= j < |out1.hist.delivered| && 0 <= k < |out1.events|
        && IsQuote(out1.hist.delivered[j], doc, i) && IsQuote(out1.events[k], doc, i)
      ensures Number(out1.hist.delivered[j]) <= Number(out1.events[k])
    {
      if k >= |w.out.events| {
        assert out1.events[k] == e;
        BodyIsAbove(w.out.hist.produced, w.out.hist.delivered[j], doc, i, Number(e));
      }
    }
  }

  lemma EnqueueKeepsBehind(u: Setup, w: World, e: O.Event<Body>)
    requires Shaped(w) && Known(w.out) && Numbered(w.out.hist.produced + [e])
    requires Numbered(w.out.events) && Behind(u, w.out, w.server)
    ensures var out1 := O.DoEnqueue(u.maxSize, w.out, e);
            Numbered(out1.events) && Behind(u, out1, w.server)
  {
    var out1 := O.DoEnqueue(u.maxSize, w.out, e);
    ProducedSnoc(w.out.hist.produced, e);
    forall doc, i | IsQuote(e, doc, i) ensures Above(w.out.events, doc, i, Number(e)) {
      KnownIsAbove(w.out, doc, i, Number(e));
    }
    NumberedSnoc(w.out.events, e);
    forall doc, i, k | doc in u.mine && 0 <= k < |out1.events| && IsQuote(out1.events[k], doc, i)
      ensures UpTo(w.server, doc, i, Number(out1.events[k]))
    {
      if k < |w.out.events| {
        assert IsQuote(w.out.events[k], doc, i);
      } else {
        assert Above(w.out.hist.produced, doc, i, Number(e));
      }
    }
  }

  lemma EnqueueInOrder(u: Setup, w: World, e: O.Event<Body>)
    requires Shaped(w) && InOrder(u, w)
    ensures InOrder(u, w.(out := O.DoEnqueue(u.maxSize, w.out, e)))
  {
    EnqueueKnows(u, w, e);
    if Numbered(w.out.hist.produced + [e]) {
      ProducedSnoc(w.out.hist.produced, e);
      EnqueueKeepsBehind(u, w, e);
      EnqueueKeepsTrailing(u, w, e);
    }
  }

  // ------------------------------------------------------------------ commit

  /** Every kept event is an old one, bodies unchanged, in the old order. */
  ghost predicate Thins(a: seq<O.Event<Body>>, b: seq<O.Event<Body>>, from: seq<nat>) {
    && |from| == |b|
    && (forall k | 0 <= k < |b| :: from[k] < |a| && a[from[k]].body == b[k].body)
    && (forall j, k | 0 <= j < k < |b| :: from[j] < from[k])
  }

  lemma {:induction false} WithoutThins(s: seq<O.Event<Body>>, id: nat) returns (from: seq<nat>)
    ensures Thins(s, O.Without(s, id), from)
  {
    if s == [] {
      from := [];
    } else {
      var t := s[..|s| - 1];
      from := WithoutThins(t, id);
      var last := s[|s| - 1];
      assert s == t + [last];
      ThinsSnoc(t, O.Without(t, id), from, last);
      if last.id != id {
        from := from + [|t|];
      }
    }
  }

  lemma ThinsSnoc(a: seq<O.Event<Body>>, b: seq<O.Event<Body>>, from: seq<nat>, e: O.Event<Body>)
    requires Thins(a, b, from)
    ensures Thins(a + [e], b, from) && Thins(a + [e], b + [e], from + [|a|])
  {
  }

  lemma ThinnedIsNumbered(a: seq<O.Event<Body>>, b: seq<O.Event<Body>>, from: seq<nat>)
    requires Thins(a, b, from) && Numbered(a)
    ensures Numbered(b)
  {
    forall doc, i, j, k | 0 <= j < k < |b| && IsQuote(b[j], doc, i) && IsQuote(b[k], doc, i)
      ensures Number(b[j]) < Number(b[k])
    {
      var x, y := from[j], from[k];
      assert x < y < |a| && IsQuote(a[x], doc, i) && IsQuote(a[y], doc, i);
      assert Number(a[x]) < Number(a[y]);
    }
  }

  lemma ThinnedIsBehind(u: Setup, out: O.World<Body>, out1: O.World<Body>, server: C.Server, from: seq<nat>)
    requires Thins(out.events, out1.events, from) && out1.hist.produced == out.hist.produced
    requires Behind(u, out, server)
    ensures Behind(u, out1, server)
  {
    forall doc, i, k | doc in u.mine && 0 <= k < |out1.events| && IsQuote(out1.events[k], doc, i)
      ensures UpTo(server, doc, i, Number(out1.events[k]))
    {
      var j := from[k];
      assert IsQuote(out.events[j], doc, i) && Number(out.events[j]) == Number(out1.events[k]);
    }
  }

  lemma ThinnedIsKnown(out: O.World<Body>, out1: O.World<Body>, from: seq<nat>)
    requires Thins(out.events, out1.events, from) && Known(out) && Said(out)
    requires out1.hist.produced == out.hist.produced && out1.hist.delivered == out.hist.delivered
    ensures Known(out1) && Said(out1)
  {
    forall k | 0 <= k < |out1.events|
      ensures HasBody(out1.hist.produced, out1.events[k].body)
    {
      var n := from[k];
      assert HasBody(out.hist.produced, out.events[n].body);
    }
  }

  lemma ThinnedIsTrailing(out: O.World<Body>, out1: O.World<Body>, from: seq<nat>)
    requires Thins(out.events, out1.events, from) && out1.hist.delivered == out.hist.delivered && Trailing(out)
    ensures Trailing(out1)
  {
    forall doc, i, j, k | 0 <= j < |out1.hist.delivered| && 0 <= k < |out1.events|
        && IsQuote(out1.hist.delivered[j], doc, i) && IsQuote(out1.events[k], doc, i)
      ensures Number(out1.hist.delivered[j]) <= Number(out1.events[k])
    {
      var n := from[k];
      assert IsQuote(out.events[n], doc, i) && IsQuote(out.hist.delivered[j], doc, i);
    }
  }

  lemma ThinnedIsOrdered(u: Setup, w: World, out1: O.World<Body>, from: seq<nat>)
    requires InOrder(u, w) && Thins(w.out.events, out1.events, from)
    requires out1.hist.produced == w.out.hist.produced && Numbered(out1.hist.produced)
    requires out1.hist.delivered == w.out.hist.delivered
    ensures Numbered(out1.events) && Trailing(out1) && Behind(u, out1, w.server)
  {
    ThinnedIsNumbered(w.out.events, out1.events, from);
    ThinnedIsTrailing(w.out, out1, from);
    ThinnedIsBehind(u, w.out, out1, w.server, from);
  }

  lemma ThinningKeepsOrder(u: Setup, w: World, out1: O.World<Body>, from: seq<nat>)
    requires InOrder(u, w) && Thins(w.out.events, out1.events, from)
    requires out1.hist.produced == w.out.hist.produced && out1.hist.delivered == w.out.hist.delivered
    ensures InOrder(u, World(out1, w.server))
  {
    ThinnedIsKnown(w.out, out1, from);
    if Numbered(out1.hist.produced) {
      ThinnedIsOrdered(u, w, out1, from);
    }
  }

  lemma CommitInOrder(u: Setup, w: World)
    requires Shaped(w) && InOrder(u, w) && w.out.phase.Answered?
    ensures InOrder(u, w.(out := O.Move(u.maxSize, w.out, O.Commit)))
  {
    var out1 := O.Move(u.maxSize, w.out, O.Commit);
    var from: seq<nat>;
    if out1.events == w.out.events || w.out.phase.outcome.RetryAt? {
      from := seq(|w.out.events|, k => k);
    } else {
      from := WithoutThins(w.out.events, w.out.phase.event.id);
    }
    ThinningKeepsOrder(u, w, out1, from);
  }

  lemma BridgeInOrder(u: Setup, w: World, step: O.Step<Body>)
    requires Sound(u, w) && InOrder(u, w) && !step.Answer? && Proper(u, Bridge(step))
    ensures InOrder(u, Move(u, w, Bridge(step)))
  {
    match step {
      case Enqueue(e) => if e.id !in O.Ids(w.out.hist.produced) { EnqueueInOrder(u, w, e); }
      case Decide(now) => if w.out.phase.Loaded? { DecideInOrder(u, w, now); }
      case Commit => if w.out.phase.Answered? { CommitInOrder(u, w); }
      case Answer(_) =>
      case _ => QuietInOrder(u, w, step);
    }
  }

  lemma QuietInOrder(u: Setup, w: World, step: O.Step<Body>)
    requires Shaped(w) && InOrder(u, w) && !step.Answer? && !step.Enqueue? && !step.Commit? && !step.Decide?
    ensures InOrder(u, Move(u, w, Bridge(step)))
  {
    OW.QuietMoveShows(u.maxSize, w.out, step);
    SameListsInOrder(u, w, Move(u, w, Bridge(step)));
  }

  /** What is sent out is pending, and has the least number of its document and pair. */
  lemma DecideInOrder(u: Setup, w: World, now: int)
    requires Sound(u, w) && InOrder(u, w) && w.out.phase.Loaded?
    ensures InOrder(u, Move(u, w, Bridge(O.Decide(now))))
  {
    var w1 := Move(u, w, Bridge(O.Decide(now)));
    DecideDelivers(u.maxSize, w.out, now);
    MoveIsSound(u, w, Bridge(O.Decide(now)));
    if w1.out.phase.InFlight? {
      SentIsSaid(u, w, w1);
      if Numbered(w.out.hist.produced) {
        SentIsTrailing(u, w, w1);
      }
    }
  }

  lemma SentIsSaid(u: Setup, w: World, w1: World)
    requires Known(w.out) && Said(w.out) && Sound(u, w1) && w1.out.phase.InFlight?
    requires w1.out.events == w.out.events && w1.out.hist.produced == w.out.hist.produced
    requires w1.out.hist.delivered == w.out.hist.delivered + [w1.out.phase.event]
    ensures Known(w1.out) && Said(w1.out)
  {
    OutIsPending(u, w1);
    var at :| 0 <= at < |w1.out.events| && w1.out.events[at] == w1.out.phase.event;
    assert HasBody(w1.out.hist.produced, w1.out.events[at].body);
  }

  lemma SentIsTrailing(u: Setup, w: World, w1: World)
    requires Trailing(w.out) && Sound(u, w1) && w1.out.phase.InFlight? && Numbered(w1.out.events)
    requires w1.out.events == w.out.events
    requires w1.out.hist.delivered == w.out.hist.delivered + [w1.out.phase.event]
    ensures Trailing(w1.out)
  {
    forall doc, i, j, k | 0 <= j < |w1.out.hist.delivered| && 0 <= k < |w1.out.events|
        && IsQuote(w1.out.hist.delivered[j], doc, i) && IsQuote(w1.out.events[k], doc, i)
      ensures Number(w1.out.hist.delivered[j]) <= Number(w1.out.events[k])
    {
      if j < |w.out.hist.delivered| {
        assert w1.out.hist.delivered[j] == w.out.hist.delivered[j];
      } else {
        OutIsLeast(u, w1, doc, i, k);
      }
    }
  }

  // ----------------------------------------------------------------- deliver

  /** The event out for delivery has the least number pending for its document and pair. */
  lemma OutIsLeast(u: Setup, w: World, doc: nat, i: Instrument, k: nat)
    requires Sound(u, w) && Numbered(w.out.events) && w.out.phase.InFlight?
    requires k < |w.out.events| && IsQuote(w.out.events[k], doc, i) && IsQuote(w.out.phase.event, doc, i)
    ensures Number(w.out.phase.event) <= Number(w.out.events[k])
  {
    OutIsPending(u, w);
    var e := w.out.phase.event;
    var at :| 0 <= at < |w.out.events| && w.out.events[at] == e
      && forall j | 0 <= j < at :: O.GroupOf(w.out.events[j]) != O.GroupOf(e);
    assert Wrapped(u, w.out.events[k]);
  }

  lemma DeliverKeepsBehind(u: Setup, w: World, t: C.Clock, received: int, fault: C.Fault)
    requires Sound(u, w) && w.out.phase.InFlight? && Known(w.out)
    requires Numbered(w.out.events) && Behind(u, w.out, w.server)
    ensures var e := w.out.phase.event;
            Behind(u, w.out, Handle(u.cfg, w.server, e.id, e.body, t, received, fault).0)
  {
    var e := w.out.phase.event;
    var s1 := Handle(u.cfg, w.server, e.id, e.body, t, received, fault).0;
    OutIsPending(u, w);
    var at :| 0 <= at < |w.out.events| && w.out.events[at] == e;
    forall doc, i, n | doc in u.mine && Above(w.out.hist.produced, doc, i, n)
      ensures UpTo(s1, doc, i, n)
    {
      KnownIsAbove(w.out, doc, i, n);
      HandleKeepsUpTo(u, w.server, e, t, received, fault, doc, i, n);
    }
    forall doc, i, k | doc in u.mine && 0 <= k < |w.out.events| && IsQuote(w.out.events[k], doc, i)
      ensures UpTo(s1, doc, i, Number(w.out.events[k]))
    {
      if IsQuote(e, doc, i) {
        OutIsLeast(u, w, doc, i, k);
      }
      HandleKeepsUpTo(u, w.server, e, t, received, fault, doc, i, Number(w.out.events[k]));
    }
  }

  lemma SameListsInOrder(u: Setup, w: World, w1: World)
    requires InOrder(u, w)
    requires w1.out.events == w.out.events && w1.out.hist.produced == w.out.hist.produced
    requires w1.out.hist.delivered == w.out.hist.delivered
    requires Numbered(w.out.hist.produced) ==> Behind(u, w.out, w1.server)
    ensures InOrder(u, w1)
  {
  }

  lemma DeliverInOrder(u: Setup, w: World, fate: Fate, retryAt: int)
    requires Sound(u, w) && InOrder(u, w)
    ensures InOrder(u, Move(u, w, Deliver(fate, retryAt)))
  {
    if w.out.phase.InFlight? {
      DeliverShows(u, w, fate, retryAt);
      if fate.Handled? && Numbered(w.out.hist.produced) {
        DeliverKeepsBehind(u, w, fate.clock, fate.received, fate.fault);
      }
      SameListsInOrder(u, w, Move(u, w, Deliver(fate, retryAt)));
    }
  }

  /** A delivery leaves the outbox's lists alone, and the collector too unless it handles it. */
  lemma DeliverShows(u: Setup, w: World, fate: Fate, retryAt: int)
    requires Shaped(w) && w.out.phase.InFlight?
    ensures var w1, e := Move(u, w, Deliver(fate, retryAt)), w.out.phase.event;
            && w1.out.events == w.out.events && w1.out.hist == w.out.hist
            && w1.server ==
                 (if fate.Handled? then Handle(u.cfg, w.server, e.id, e.body, fate.clock, fate.received, fate.fault).0
                  else w.server)
  {
  }

  /** A request handled late: what it carries is behind everything pending and to come. */
  lemma LateInOrder(u: Setup, w: World, k: nat, t: C.Clock, received: int, fault: C.Fault)
    requires Sound(u, w) && InOrder(u, w) && k < |w.out.hist.delivered|
    ensures InOrder(u, Move(u, w, Late(k, t, received, fault)))
  {
    var e := w.out.hist.delivered[k];
    if Numbered(w.out.hist.produced) {
      LateKeepsBehind(u, w, e, k, t, received, fault);
    }
    SameListsInOrder(u, w, Move(u, w, Late(k, t, received, fault)));
  }

  lemma LateKeepsBehind(u: Setup, w: World, e: O.Event<Body>, k: nat, t: C.Clock, received: int, fault: C.Fault)
    requires Sound(u, w) && Said(w.out) && Trailing(w.out) && Behind(u, w.out, w.server)
    requires k < |w.out.hist.delivered| && e == w.out.hist.delivered[k]
    ensures Behind(u, w.out, Handle(u.cfg, w.server, e.id, e.body, t, received, fault).0)
  {
    var s1 := Handle(u.cfg, w.server, e.id, e.body, t, received, fault).0;
    forall doc, i, n | doc in u.mine && Above(w.out.hist.produced, doc, i, n)
      ensures UpTo(s1, doc, i, n)
    {
      if IsQuote(e, doc, i) {
        BodyIsAbove(w.out.hist.produced, e, doc, i, n);
      }
      HandleKeepsUpTo(u, w.server, e, t, received, fault, doc, i, n);
    }
    forall doc, i, j | doc in u.mine && 0 <= j < |w.out.events| && IsQuote(w.out.events[j], doc, i)
      ensures UpTo(s1, doc, i, Number(w.out.events[j]))
    {
      HandleKeepsUpTo(u, w.server, e, t, received, fault, doc, i, Number(w.out.events[j]));
    }
  }

  lemma ElsewhereInOrder(u: Setup, w: World, act: C.Step)
    requires Sound(u, w) && InOrder(u, w) && Exclusive(u, Elsewhere(act))
    ensures InOrder(u, Move(u, w, Elsewhere(act)))
  {
    if Numbered(w.out.hist.produced) {
      var s1 := C.Move(u.cfg, w.server, act);
      forall doc, i, n | doc in u.mine && UpTo(w.server, doc, i, n)
        ensures UpTo(s1, doc, i, n)
      {
        ElsewhereKeepsUpTo(u, w.server, act, doc, i, n);
      }
    }
  }

  lemma MoveInOrder(u: Setup, w: World, a: Step)
    requires Sound(u, w) && InOrder(u, w) && Exclusive(u, a)
    ensures InOrder(u, Move(u, w, a))
  {
    match a {
      case Bridge(step) => if !step.Answer? { BridgeInOrder(u, w, step); }
      case Deliver(fate, retryAt) => DeliverInOrder(u, w, fate, retryAt);
      case Late(k, t, received, fault) =>
        if k < |w.out.hist.delivered| { LateInOrder(u, w, k, t, received, fault); }
      case Elsewhere(act) => ElsewhereInOrder(u, w, act);
    }
  }

  lemma {:induction false} RunInOrder(u: Setup, w: World, steps: seq<Step>)
    requires Sound(u, w) && InOrder(u, w) && forall a | a in steps :: Exclusive(u, a)
    ensures InOrder(u, Run(u, w, steps))
    decreases |steps|
  {
    if steps != [] {
      assert Exclusive(u, steps[0]);
      MoveInOrder(u, w, steps[0]);
      MoveIsSound(u, w, steps[0]);
      RunInOrder(u, Move(u, w, steps[0]), steps[1..]);
    }
  }

  // ------------------------------------------------------------- the theorem

  /** The rules the adapter answers when the collector handles this quote now. */
  function AdapterRules(cfg: C.Settings, s: C.Server, m: C.Message, t: C.Clock): seq<A.Rule>
  {
    var s1 := C.Greet(cfg, s, m, t);
    var e := C.EnvelopeOf(m, t.received, C.LastSequence(s1.db.ticks, m.doc, m.instrument));
    match A.Process(cfg.adapter, s1.col.adapter, e).1
    case Output(rules, _) => rules
    case Raised => []
  }

  /** A quote at or beyond everything known of its key is never out of order. */
  lemma NotBehindIsInOrder(cfg: A.Config, s: A.State, e: A.Envelope)
    requires A.Visible(e) && e.observationSequence.Some?
    requires e.persistedLast.Some? ==> e.persistedLast.value <= e.observationSequence.value
    requires var prev := A.Lookup(s.quotes, A.KeyOf(e));
             prev.Some? && prev.value.sequence.Some? ==> prev.value.sequence.value <= e.observationSequence.value
    ensures match A.Process(cfg, s, e).1
            case Output(rules, _) => A.SeqOutOfOrder !in rules
            case Raised => true
  {
    var prev := A.Lookup(s.quotes, A.KeyOf(e));
    if A.Assess(cfg, prev, e).Accept? {
      AL.AcceptedFacts(cfg, prev, e);
      RulingIsInOrder(cfg, prev, e, A.Assess(cfg, prev, e).quote);
    }
  }

  lemma RulingIsInOrder(cfg: A.Config, prev: Option<A.Quote>, e: A.Envelope, q: A.Candidate)
    requires A.Visible(e) && q.sequence.Some?
    requires prev.Some? && prev.value.sequence.Some? ==> prev.value.sequence.value <= q.sequence.value
    ensures match A.Admit(cfg, prev, e, q)
            case Suppress(rules) => A.SeqOutOfOrder !in rules
            case Publish(warnings) => A.SeqOutOfOrder !in warnings
  {
    var r := A.OrderRuling(cfg, prev, e, q);
    assert r.Publish? ==> A.SeqOutOfOrder !in r.warnings;
    assert r.Suppress? ==> A.SeqOutOfOrder !in r.rules;
  }

  lemma OutIsWithin(u: Setup, w: World)
    requires Sound(u, w) && InOrder(u, w) && Numbered(w.out.hist.produced)
    requires w.out.phase.InFlight? && w.out.phase.event.body.Quote?
    ensures var e := w.out.phase.event;
            var m := e.body.message;
            && Wrapped(u, e) && IsQuote(e, m.doc, m.instrument)
            && UpTo(w.server, m.doc, m.instrument, Number(e))
  {
    var e := w.out.phase.event;
    OutIsPending(u, w);
    var k :| 0 <= k < |w.out.events| && w.out.events[k] == e;
    assert IsQuote(w.out.events[k], e.body.message.doc, e.body.message.instrument);
  }

  /** If each document's quotes of a pair are enqueued in numbered order, then whenever the
      collector handles the event out for delivery, after any run, with any earlier requests
      handled late and again, the adapter never answers SEQ_OUT_OF_ORDER. */
  lemma NumberedQuotesNeverArriveOutOfOrder(u: Setup, steps: seq<Step>, t: C.Clock)
    requires forall a | a in steps :: Exclusive(u, a)
    requires var w := Run(u, NEW, steps);
             && Numbered(w.out.hist.produced)
             && w.out.phase.InFlight? && w.out.phase.event.body.Quote?
    ensures var w := Run(u, NEW, steps);
            A.SeqOutOfOrder !in AdapterRules(u.cfg, w.server, w.out.phase.event.body.message, t)
  {
    NewIsSound(u);
    assert InOrder(u, NEW);
    RunInOrder(u, NEW, steps);
    RunIsSound(u, NEW, steps);
    var w := Run(u, NEW, steps);
    var e := w.out.phase.event;
    var m := e.body.message;
    OutIsWithin(u, w);
    SL.GreetForgets(u.cfg, w.server, m, t);
    var s1 := C.Greet(u.cfg, w.server, m, t);
    ForgettingKeepsUpTo(w.server, s1, m.doc, m.instrument, Number(e));
    var envelope := C.EnvelopeOf(m, t.received, C.LastSequence(s1.db.ticks, m.doc, m.instrument));
    assert A.KeyOf(envelope) == Some(A.Key(m.conn, m.session, m.instrument));
    NotBehindIsInOrder(u.cfg.adapter, s1.col.adapter, envelope);
  }
}

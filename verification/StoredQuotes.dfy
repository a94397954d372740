/** What the stored ticks say, across the whole path: each is a quote the page showed and the
    outbox accepted, unchanged. */
module StoredQuotes {
  import opened Wrappers
  import opened Instruments
  import opened Delivery
  import O = OutboxModel
  import C = CollectorModel
  import DO = DeliveryOrder
  import DT = DeliveredTicks
  import IL = IngestLaws

  /** Some enqueued event is this tick's quote: same id, document, pair, number, bid and ask. */
  ghost predicate Enqueued(produced: seq<O.Event<Body>>, row: C.TickRow) {
    exists m: C.Message :: DO.HasBody(produced, Quote(m)) && Says(m, row)
  }

  ghost predicate Says(m: C.Message, row: C.TickRow) {
    m.bid.Some? && m.ask.Some?
    && row == C.TickRow(m.eventId, m.doc, m.instrument, m.sequence, m.bid.value, m.ask.value)
  }

  ghost predicate Honest(u: Setup, w: World) {
    forall row | row in w.server.db.ticks && row.doc in u.mine :: Enqueued(w.out.hist.produced, row)
  }

  lemma MoveProduces(u: Setup, w: World, a: Step)
    requires Shaped(w)
    ensures w.out.hist.produced <= Move(u, w, a).out.hist.produced
  {
    match a {
      case Bridge(step) =>
      case Deliver(fate, retryAt) => if w.out.phase.InFlight? { DO.DeliverShows(u, w, fate, retryAt); }
      case Late(_, _, _, _) =>
      case Elsewhere(_) =>
    }
  }

  lemma StaysEnqueued(a: seq<O.Event<Body>>, b: seq<O.Event<Body>>, row: C.TickRow)
    requires a <= b && Enqueued(a, row)
    ensures Enqueued(b, row)
  {
    var m: C.Message :| DO.HasBody(a, Quote(m)) && Says(m, row);
    var j :| 0 <= j < |a| && a[j].body == Quote(m);
    assert b[j].body == Quote(m);
  }

  /** A quote of this browser that the collector is asked about was enqueued. */
  lemma AskedWasEnqueued(u: Setup, w: World, a: Step, row: C.TickRow)
    requires Sound(u, w) && DO.InOrder(u, w) && Exclusive(u, a) && row.doc in u.mine
    requires DT.Asked(w, a) != [] && IL.Brought(row, DT.Asked(w, a)[0])
    ensures Enqueued(w.out.hist.produced, row)
  {
    if DT.Handed(w, a).Some? {
      var x := DT.Handed(w, a).value;
      DT.HandedIsWrapped(u, w, a);
      assert Says(x.event.body.message, row);
      if a.Deliver? {
        OutIsPending(u, w);
        var k :| 0 <= k < |w.out.events| && w.out.events[k] == x.event;
        assert DO.HasBody(w.out.hist.produced, w.out.events[k].body);
      } else {
        assert DO.HasBody(w.out.hist.produced, w.out.hist.delivered[a.k].body);
      }
    }
  }

  /** A row that a step adds is the tick of what it asks of the collector. */
  lemma AddedWasAsked(u: Setup, w: World, a: Step, row: C.TickRow)
    requires Shaped(w) && row in Move(u, w, a).server.db.ticks && row !in w.server.db.ticks
    ensures DT.Asked(w, a) != [] && IL.Brought(row, DT.Asked(w, a)[0])
  {
    var before, after := w.server.db.ticks, Move(u, w, a).server.db.ticks;
    DT.AskedMoves(u, w, a);
    if DT.Asked(w, a) != [] {
      DT.RunOne(u.cfg, w.server, DT.Asked(w, a)[0]);
      IL.MoveBrings(u.cfg, w.server, DT.Asked(w, a)[0]);
      IL.NewRowIsLast(before, after, row);
    }
  }

  lemma MoveIsHonest(u: Setup, w: World, a: Step)
    requires Sound(u, w) && DO.InOrder(u, w) && Exclusive(u, a) && Honest(u, w)
    ensures Honest(u, Move(u, w, a))
  {
    var w1 := Move(u, w, a);
    MoveProduces(u, w, a);
    forall row | row in w1.server.db.ticks && row.doc in u.mine
      ensures Enqueued(w1.out.hist.produced, row)
    {
      if row !in w.server.db.ticks {
        AddedWasAsked(u, w, a, row);
        AskedWasEnqueued(u, w, a, row);
      }
      StaysEnqueued(w.out.hist.produced, w1.out.hist.produced, row);
    }
  }

  lemma {:induction false} RunIsHonest(u: Setup, w: World, steps: seq<Step>)
    requires Sound(u, w) && DO.InOrder(u, w) && Honest(u, w) && forall a | a in steps :: Exclusive(u, a)
    ensures Honest(u, Run(u, w, steps))
    decreases |steps|
  {
    if steps != [] {
      assert Exclusive(u, steps[0]);
      MoveIsHonest(u, w, steps[0]);
      DO.MoveInOrder(u, w, steps[0]);
      MoveIsSound(u, w, steps[0]);
      RunIsHonest(u, Move(u, w, steps[0]), steps[1..]);
    }
  }

  /** In every run of browser, network and collector, each stored tick of this browser's documents
      is a quote that was enqueued, with its id, document, pair, number, bid and ask. */
  lemma StoredTicksWereEnqueued(u: Setup, steps: seq<Step>)
    requires forall a | a in steps :: Exclusive(u, a)
    ensures var w := Run(u, NEW, steps);
            forall row | row in w.server.db.ticks && row.doc in u.mine :: Enqueued(w.out.hist.produced, row)
  {
    NewIsSound(u);
    RunIsHonest(u, NEW, steps);
  }
}

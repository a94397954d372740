/** The whole delivery path: one browser's outbox, a network that loses requests and answers,
    and the collector with its stores, under every interleaving. */
module Delivery {
  import opened Wrappers
  import opened Instruments
  import O = OutboxModel
  import OL = OutboxLists
  import OT = OutboxTheorems
  import C = CollectorModel
  import CL = CollectorLaws
  import SL = StoreLaws

  /** What an outbox event carries: a quote for the provider endpoint, or a discovery frame. */
  datatype Body = Quote(message: C.Message) | Frame(session: nat, conn: nat)

  datatype World = World(out: O.World<Body>, server: C.Server)

  /** Settings of a run: the documents this browser has, and each document's connection. */
  datatype Setup = Setup(maxSize: nat, cfg: C.Settings, mine: set<nat>, connOf: nat -> nat)

  /** What becomes of one request while its client waits for the answer. */
  datatype Fate =
    | Lost                                      // or refused for now: 401, 403, 408, 429
    | Refused                                   // any other client error
    | Handled(clock: C.Clock, received: int, fault: C.Fault, answerArrives: bool)

  datatype Step =
    | Bridge(step: O.Step<Body>)
    | Deliver(fate: Fate, retryAt: int)
    | Late(k: nat, clock: C.Clock, received: int, fault: C.Fault)  // a request its client gave up on is handled
    | Elsewhere(act: C.Step)                      // other documents, heartbeats, polls, restarts

  const NEW := World(O.Start<Body>(), C.EMPTY)

  /** The handler a body is posted to. */
  function Handle(cfg: C.Settings, s: C.Server, id: nat, b: Body, t: C.Clock, received: int, fault: C.Fault)
    : (C.Server, C.Answer)
    requires C.Shaped(s)
  {
    match b
    case Quote(m) => C.Ingest(cfg, s, m, t, fault)
    case Frame(session, conn) => C.Discover(cfg, s, id, session, conn, received, t, fault)
  }

  function DeliverStep(u: Setup, w: World, e: O.Event<Body>, fate: Fate, retryAt: int): World
    requires O.Shaped(w.out) && C.Shaped(w.server)
  {
    match fate
    case Lost => w.(out := O.Move(u.maxSize, w.out, O.Answer(O.RetryAt(retryAt))))
    case Refused => w.(out := O.Move(u.maxSize, w.out, O.Answer(O.Refused)))
    case Handled(t, received, fault, arrives) =>
      var (server, answer) := Handle(u.cfg, w.server, e.id, e.body, t, received, fault);
      World(
        O.Move(u.maxSize, w.out, O.Answer(if arrives && answer != C.Failed then O.Acked else O.RetryAt(retryAt))),
        server)
  }

  ghost predicate Shaped(w: World) {
    O.Shaped(w.out) && C.Shaped(w.server)
  }

  lemma HandleShapes(cfg: C.Settings, s: C.Server, id: nat, b: Body, t: C.Clock, received: int, fault: C.Fault)
    requires C.Shaped(s)
    ensures C.Shaped(Handle(cfg, s, id, b, t, received, fault).0)
  {
    match b {
      case Quote(m) => CL.MoveShapes(cfg, s, C.IngestQuote(m, t, fault));
      case Frame(session, conn) => CL.MoveShapes(cfg, s, C.IngestDiscovery(id, session, conn, received, t, fault));
    }
  }

  function Move(u: Setup, w: World, a: Step): (r: World)
    requires Shaped(w)
    ensures Shaped(r)
  {
    match a
    case Bridge(step) => if step.Answer? then w else w.(out := O.Move(u.maxSize, w.out, step))
    case Deliver(fate, retryAt) =>
      if !w.out.phase.InFlight? then w
      else
        var e := w.out.phase.event;
        assert fate.Handled? ==>
          C.Shaped(Handle(u.cfg, w.server, e.id, e.body, fate.clock, fate.received, fate.fault).0) by {
          if fate.Handled? {
            HandleShapes(u.cfg, w.server, e.id, e.body, fate.clock, fate.received, fate.fault);
          }
        }
        DeliverStep(u, w, e, fate, retryAt)
    case Late(k, t, received, fault) =>
      if k >= |w.out.hist.delivered| then w
      else
        var e := w.out.hist.delivered[k];
        HandleShapes(u.cfg, w.server, e.id, e.body, t, received, fault);
        w.(server := Handle(u.cfg, w.server, e.id, e.body, t, received, fault).0)
    case Elsewhere(act) =>
      CL.MoveShapes(u.cfg, w.server, act);
      w.(server := C.Move(u.cfg, w.server, act))
  }

  function Run(u: Setup, w: World, steps: seq<Step>): (r: World)
    requires Shaped(w)
    ensures Shaped(r)
    decreases |steps|
  {
    if steps == [] then w else Run(u, Move(u, w, steps[0]), steps[1..])
  }

  /** How the service worker builds events, and what it shares with nobody. */
  ghost predicate Wrapped(u: Setup, e: O.Event<Body>) {
    match e.body
    case Quote(m) =>
      && m.eventId == e.id && e.instrument == Some(m.instrument)
      && m.session == m.doc && m.conn == u.connOf(m.session)
      && m.doc in u.mine && m.sequence.Some?
    case Frame(session, conn) => e.instrument == None && conn == u.connOf(session)
  }

  ghost predicate Proper(u: Setup, a: Step) {
    match a
    case Bridge(step) => step.Enqueue? ==> Wrapped(u, step.event)
    case Deliver(_, _) => true
    case Late(_, _, _, _) => true
    case Elsewhere(act) => CL.Identified(u.connOf, act)
  }

  /** This browser's documents send their quotes through its outbox only. */
  ghost predicate Exclusive(u: Setup, a: Step) {
    Proper(u, a) && (a.Elsewhere? && a.act.IngestQuote? ==> a.act.message.doc !in u.mine)
  }

  // ------------------------------------------------- the outbox inside the run

  ghost predicate AllWrapped(u: Setup, w: O.World<Body>) {
    && (forall k | 0 <= k < |w.events| :: Wrapped(u, w.events[k]))
    && (forall k | 0 <= k < |w.hist.delivered| :: Wrapped(u, w.hist.delivered[k]))
  }

  lemma MoveReaches(u: Setup, w: World, a: Step)
    requires Shaped(w) && OT.Reachable(u.maxSize, w.out)
    ensures OT.Reachable(u.maxSize, Move(u, w, a).out)
  {
    match a {
      case Bridge(step) => OT.MoveReaches(u.maxSize, w.out, step);
      case Deliver(fate, retryAt) =>
        if w.out.phase.InFlight? {
          OT.MoveReaches(u.maxSize, w.out, O.Answer(O.RetryAt(retryAt)));
          OT.MoveReaches(u.maxSize, w.out, O.Answer(O.Refused));
          OT.MoveReaches(u.maxSize, w.out, O.Answer(O.Acked));
        }
      case Late(_, _, _, _) =>
      case Elsewhere(_) =>
    }
  }

  /** The event out for delivery is pending, the first of its group, and wrapped. */
  lemma OutIsPending(u: Setup, w: World)
    requires OT.Reachable(u.maxSize, w.out) && AllWrapped(u, w.out)
    requires w.out.phase.InFlight? || w.out.phase.Answered?
    ensures var e := w.out.phase.event;
            && Wrapped(u, e)
            && exists k :: 0 <= k < |w.out.events| && w.out.events[k] == e
                 && forall j | 0 <= j < k :: O.GroupOf(w.out.events[j]) != O.GroupOf(e)
    ensures OL.DistinctIds(w.out.events)
  {
    var steps: seq<O.Step<Body>> :| w.out == OT.Reached(u.maxSize, steps);
    OT.ReachedIsGood(u.maxSize, steps);
    FindIsFirst(w.out.events, O.GroupOf(w.out.phase.event));
  }

  lemma {:induction false} FindIsFirst(s: seq<O.Event<Body>>, g: O.Group)
    ensures O.Find(s, g).Some? ==>
              exists k :: 0 <= k < |s| && s[k] == O.Find(s, g).value
                && forall j | 0 <= j < k :: O.GroupOf(s[j]) != g
  {
    if s != [] && O.GroupOf(s[0]) != g {
      FindIsFirst(s[1..], g);
      if O.Find(s[1..], g).Some? {
        var k :| 0 <= k < |s| - 1 && s[1..][k] == O.Find(s[1..], g).value
          && forall j | 0 <= j < k :: O.GroupOf(s[1..][j]) != g;
        assert s[k + 1] == s[1..][k];
        assert forall j | 1 <= j < k + 1 :: s[j] == s[1..][j - 1];
      }
    }
  }

  lemma {:induction false} WithoutKeeps(s: seq<O.Event<Body>>, id: nat)
    ensures forall k | 0 <= k < |O.Without(s, id)| :: O.Without(s, id)[k] in s
  {
    if s != [] {
      WithoutKeeps(s[..|s| - 1], id);
      assert forall x | x in s[..|s| - 1] :: x in s;
    }
  }

  lemma MoveWraps(u: Setup, w: O.World<Body>, step: O.Step<Body>)
    requires O.Shaped(w) && OT.Reachable(u.maxSize, w) && AllWrapped(u, w)
    requires step.Enqueue? ==> Wrapped(u, step.event)
    ensures AllWrapped(u, O.Move(u.maxSize, w, step))
  {
    if step.Commit? && w.phase.Answered? {
      WithoutKeeps(w.events, w.phase.event.id);
    }
    if step.Decide? && w.phase.Loaded? {
      DecideWraps(u, w, step.now);
    }
  }

  /** What a decision sends out is pending. */
  lemma DecideWraps(u: Setup, w: O.World<Body>, now: int)
    requires O.Shaped(w) && OT.Reachable(u.maxSize, w) && AllWrapped(u, w) && w.phase.Loaded?
    ensures AllWrapped(u, O.Move(u.maxSize, w, O.Decide(now)))
  {
    var w1 := O.Move(u.maxSize, w, O.Decide(now));
    OT.MoveReaches(u.maxSize, w, O.Decide(now));
    DecideDelivers(u.maxSize, w, now);
    if w1.phase.InFlight? {
      var steps: seq<O.Step<Body>> :| w1 == OT.Reached(u.maxSize, steps);
      OT.ReachedIsGood(u.maxSize, steps);
      FindIsFirst(w1.events, O.GroupOf(w1.phase.event));
    }
  }

  /** A decision sends out one event or none, and leaves the queue alone. */
  lemma DecideDelivers(maxSize: nat, w: O.World<Body>, now: int)
    requires O.Shaped(w) && w.phase.Loaded?
    ensures var w1 := O.Move(maxSize, w, O.Decide(now));
            && w1.events == w.events && w1.hist.produced == w.hist.produced
            && w1.hist.delivered ==
                 w.hist.delivered + (if w1.phase.InFlight? then [w1.phase.event] else [])
  {
  }

  // -------------------------------------------------------- acknowledgement

  /** Every acknowledged event has its raw row or was answered as a standby observation. */
  ghost predicate AcksSettled(w: World) {
    && (forall k | 0 <= k < |w.out.hist.acked| :: SL.Settled(w.server, w.out.hist.acked[k].id))
    && (w.out.phase.Answered? && w.out.phase.outcome == O.Acked ==> SL.Settled(w.server, w.out.phase.event.id))
    && SL.Idempotent(w.server.db)
  }

  ghost predicate Sound(u: Setup, w: World) {
    && Shaped(w) && OT.Reachable(u.maxSize, w.out)
    && AllWrapped(u, w.out) && AcksSettled(w) && SL.Sequenced(u.connOf, w.server)
  }

  lemma HandleIsSound(u: Setup, s: C.Server, e: O.Event<Body>, t: C.Clock, received: int, fault: C.Fault)
    requires C.Shaped(s) && SL.Idempotent(s.db) && SL.Sequenced(u.connOf, s) && Wrapped(u, e)
    ensures var (s1, answer) := Handle(u.cfg, s, e.id, e.body, t, received, fault);
            && SL.Idempotent(s1.db) && SL.Sequenced(u.connOf, s1)
            && (forall id | SL.Settled(s, id) :: SL.Settled(s1, id))
            && (answer != C.Failed ==> SL.Settled(s1, e.id))
  {
    match e.body {
      case Quote(m) =>
        SL.IngestStores(u.cfg, s, m, t, fault);
        SL.IngestStaysSequenced(u.connOf, u.cfg, s, m, t, fault);
      case Frame(session, conn) =>
        SL.DiscoverStores(u.cfg, s, e.id, session, conn, received, t, fault);
        SL.MoveStaysSequenced(u.connOf, u.cfg, s, C.IngestDiscovery(e.id, session, conn, received, t, fault));
    }
  }

  lemma DeliverIsSound(u: Setup, w: World, fate: Fate, retryAt: int)
    requires Sound(u, w) && w.out.phase.InFlight?
    ensures var w1 := Move(u, w, Deliver(fate, retryAt));
            AllWrapped(u, w1.out) && AcksSettled(w1) && SL.Sequenced(u.connOf, w1.server)
  {
    OutIsPending(u, w);
    if fate.Handled? {
      HandleIsSound(u, w.server, w.out.phase.event, fate.clock, fate.received, fate.fault);
    }
  }

  lemma BridgeIsSound(u: Setup, w: World, step: O.Step<Body>)
    requires Sound(u, w) && !step.Answer? && (step.Enqueue? ==> Wrapped(u, step.event))
    ensures var w1 := Move(u, w, Bridge(step));
            AllWrapped(u, w1.out) && AcksSettled(w1) && SL.Sequenced(u.connOf, w1.server)
  {
    MoveWraps(u, w.out, step);
  }

  lemma LateIsSound(u: Setup, w: World, k: nat, t: C.Clock, received: int, fault: C.Fault)
    requires Sound(u, w) && k < |w.out.hist.delivered|
    ensures var w1 := Move(u, w, Late(k, t, received, fault));
            AllWrapped(u, w1.out) && AcksSettled(w1) && SL.Sequenced(u.connOf, w1.server)
  {
    HandleIsSound(u, w.server, w.out.hist.delivered[k], t, received, fault);
  }

  lemma MoveIsSound(u: Setup, w: World, a: Step)
    requires Sound(u, w) && Proper(u, a)
    ensures Sound(u, Move(u, w, a))
  {
    MoveReaches(u, w, a);
    match a {
      case Bridge(step) => if !step.Answer? { BridgeIsSound(u, w, step); }
      case Deliver(fate, retryAt) => if w.out.phase.InFlight? { DeliverIsSound(u, w, fate, retryAt); }
      case Late(k, t, received, fault) =>
        if k < |w.out.hist.delivered| { LateIsSound(u, w, k, t, received, fault); }
      case Elsewhere(act) =>
        SL.MoveStores(u.cfg, w.server, act);
        SL.MoveStaysSequenced(u.connOf, u.cfg, w.server, act);
    }
  }

  lemma {:induction false} RunIsSound(u: Setup, w: World, steps: seq<Step>)
    requires Sound(u, w) && forall a | a in steps :: Proper(u, a)
    ensures Sound(u, Run(u, w, steps))
    decreases |steps|
  {
    if steps != [] {
      MoveIsSound(u, w, steps[0]);
      RunIsSound(u, Move(u, w, steps[0]), steps[1..]);
    }
  }

  lemma NewIsSound(u: Setup)
    ensures Sound(u, NEW)
  {
    assert NEW.out == OT.Reached(u.maxSize, []);
  }

  /** End to end, whatever is lost, retried, handled late, crashed or restarted: an event the outbox counts
      as acknowledged has its raw row or was a standby observation; each event has at most
      one raw row and one tick; and the stored ticks of each document and pair have strictly
      increasing sequences. */
  lemma DeliveryIsSound(u: Setup, steps: seq<Step>)
    requires forall a | a in steps :: Proper(u, a)
    ensures var w := Run(u, NEW, steps);
            && (forall k | 0 <= k < |w.out.hist.acked| ::
                  C.HasRaw(w.server.db, w.out.hist.acked[k].id)
                  || C.Standby(w.out.hist.acked[k].id) in w.server.log)
            && SL.Idempotent(w.server.db)
            && SL.Increasing(w.server.db.ticks)
  {
    NewIsSound(u);
    RunIsSound(u, NEW, steps);
    var w := Run(u, NEW, steps);
    assert forall k | 0 <= k < |w.out.hist.acked| :: SL.Settled(w.server, w.out.hist.acked[k].id);
  }

  /** What a delivery comes to: acknowledged exactly when it was handled, without a failure, and
      the answer arrived; rejected exactly when it was refused; otherwise to be tried again. */
  lemma AnsweredExactlyWhen(u: Setup, w: World, fate: Fate, retryAt: int)
    requires Shaped(w) && w.out.phase.InFlight?
    ensures var e, out := w.out.phase.event, Move(u, w, Deliver(fate, retryAt)).out;
            && out.phase.Answered? && out.phase.event == e
            && (out.phase.outcome == O.Acked <==>
                  fate.Handled? && fate.answerArrives
                  && Handle(u.cfg, w.server, e.id, e.body, fate.clock, fate.received, fate.fault).1 != C.Failed)
            && (out.phase.outcome == O.Refused <==> fate.Refused?)
            && (out.phase.outcome.RetryAt? ==> out.phase.outcome.time == retryAt)
            && out.events == w.out.events && out.hist == w.out.hist
  {
    AnswerShows(u.maxSize, w.out, O.Acked);
    AnswerShows(u.maxSize, w.out, O.Refused);
    AnswerShows(u.maxSize, w.out, O.RetryAt(retryAt));
  }

  lemma AnswerShows(maxSize: nat, out: O.World<Body>, outcome: O.Outcome)
    requires O.Shaped(out) && out.phase.InFlight?
    ensures var out1 := O.Move(maxSize, out, O.Answer(outcome));
            out1.phase == O.Answered(out.phase.event, outcome) && out1.events == out.events && out1.hist == out.hist
  {
  }
}

/** Lost ticks on the whole path: the exact extent of the loss for every run of browser, network
    and collector, requests handled late included; and its shorter form where none is, since
    then the outbox holds later quotes of a pair back until its head is settled. */
module DeliveredTicks {
  import opened Wrappers
  import opened Instruments
  import opened Delivery
  import O = OutboxModel
  import OL = OutboxLists
  import OW = OutboxLaws
  import OT = OutboxTheorems
  import C = CollectorModel
  import CL = CollectorLaws
  import LT = LostTicks

  // ---------------------------------------------- what the collector is asked

  /** A request that reaches the collector's handler. */
  datatype Attempt = Attempt(event: O.Event<Body>, clock: C.Clock, received: int, fault: C.Fault)

  /** The request handled in a step of the world, in time or late. */
  function Handed(w: World, a: Step): Option<Attempt> {
    match a
    case Bridge(_) => None
    case Deliver(fate, _) =>
      if w.out.phase.InFlight? && fate.Handled?
      then Some(Attempt(w.out.phase.event, fate.clock, fate.received, fate.fault)) else None
    case Late(k, clock, received, fault) =>
      if k < |w.out.hist.delivered|
      then Some(Attempt(w.out.hist.delivered[k], clock, received, fault)) else None
    case Elsewhere(_) => None
  }

  function Request(x: Attempt): C.Step {
    match x.event.body
    case Quote(m) => C.IngestQuote(m, x.clock, x.fault)
    case Frame(session, conn) => C.IngestDiscovery(x.event.id, session, conn, x.received, x.clock, x.fault)
  }

  /** The collector's step in one step of the world, if any. */
  function Asked(w: World, a: Step): seq<C.Step> {
    if a.Elsewhere? then [a.act]
    else if Handed(w, a).Some? then [Request(Handed(w, a).value)]
    else []
  }

  function AllAsked(u: Setup, w: World, steps: seq<Step>): seq<C.Step>
    requires Shaped(w)
    decreases |steps|
  {
    if steps == [] then [] else Asked(w, steps[0]) + AllAsked(u, Move(u, w, steps[0]), steps[1..])
  }

  lemma AskedMoves(u: Setup, w: World, a: Step)
    requires Shaped(w)
    ensures Move(u, w, a).server == CL.Run(u.cfg, w.server, Asked(w, a))
  {
    if Asked(w, a) != [] {
      RunOne(u.cfg, w.server, Asked(w, a)[0]);
      if Handed(w, a).Some? {
        HandedMoves(u, w, a);
        RequestIsHandled(u.cfg, w.server, Handed(w, a).value);
      }
    }
  }

  lemma HandedMoves(u: Setup, w: World, a: Step)
    requires Shaped(w) && Handed(w, a).Some?
    ensures var x := Handed(w, a).value;
            Move(u, w, a).server
            == Handle(u.cfg, w.server, x.event.id, x.event.body, x.clock, x.received, x.fault).0
  {
  }

  lemma RequestIsHandled(cfg: C.Settings, s: C.Server, x: Attempt)
    requires C.Shaped(s)
    ensures C.Move(cfg, s, Request(x)) == Handle(cfg, s, x.event.id, x.event.body, x.clock, x.received, x.fault).0
  {
  }

  lemma RunOne(cfg: C.Settings, s: C.Server, act: C.Step)
    requires C.Shaped(s)
    ensures CL.Run(cfg, s, [act]) == C.Move(cfg, s, act)
  {
    assert [act][1..] == [];
    CL.MoveShapes(cfg, s, act);
    assert CL.Run(cfg, C.Move(cfg, s, act), []) == C.Move(cfg, s, act);
  }

  lemma {:induction false} RunConcat(cfg: C.Settings, s: C.Server, a: seq<C.Step>, b: seq<C.Step>)
    requires C.Shaped(s)
    ensures CL.Run(cfg, s, a + b) == CL.Run(cfg, CL.Run(cfg, s, a), b)
    decreases |a|
  {
    if a == [] {
      assert a + b == b;
    } else {
      assert (a + b)[1..] == a[1..] + b;
      CL.MoveShapes(cfg, s, a[0]);
      RunConcat(cfg, C.Move(cfg, s, a[0]), a[1..], b);
    }
  }

  /** The collector's part of a run is a run of the collector. */
  lemma {:induction false} AllAskedMove(u: Setup, w: World, steps: seq<Step>)
    requires Shaped(w)
    ensures Run(u, w, steps).server == CL.Run(u.cfg, w.server, AllAsked(u, w, steps))
    decreases |steps|
  {
    if steps != [] {
      var w1 := Move(u, w, steps[0]);
      AskedMoves(u, w, steps[0]);
      AllAskedMove(u, w1, steps[1..]);
      RunConcat(u.cfg, w.server, Asked(w, steps[0]), AllAsked(u, w1, steps[1..]));
    }
  }

  lemma AskedIsIdentified(u: Setup, w: World, a: Step)
    requires Sound(u, w) && Proper(u, a)
    ensures forall act | act in Asked(w, a) :: CL.Identified(u.connOf, act)
  {
    if Handed(w, a).Some? {
      HandedIsWrapped(u, w, a);
    }
  }

  lemma HandedIsWrapped(u: Setup, w: World, a: Step)
    requires Sound(u, w) && Handed(w, a).Some?
    ensures Wrapped(u, Handed(w, a).value.event)
  {
    if a.Deliver? {
      OutIsPending(u, w);
    }
  }

  lemma {:induction false} AllAskedIdentified(u: Setup, w: World, steps: seq<Step>)
    requires Sound(u, w) && forall a | a in steps :: Proper(u, a)
    ensures forall act | act in AllAsked(u, w, steps) :: CL.Identified(u.connOf, act)
    decreases |steps|
  {
    if steps != [] {
      AskedIsIdentified(u, w, steps[0]);
      MoveIsSound(u, w, steps[0]);
      AllAskedIdentified(u, Move(u, w, steps[0]), steps[1..]);
    }
  }

  // ------------------------------------------------------------ two requests

  /** What other documents and other events ask of the collector. */
  predicate Foreign(a: Step, id: nat) {
    a.Elsewhere? ==>
      && (a.act.IngestQuote? ==> a.act.message.eventId != id)
      && (a.act.IngestDiscovery? ==> a.act.eventId != id)
  }

  /** No request of this event is handled. */
  predicate Unhandled(u: Setup, w: World, steps: seq<Step>, id: nat)
    requires Shaped(w)
    decreases |steps|
  {
    steps == []
    || (&& (Handed(w, steps[0]).Some? ==> Handed(w, steps[0]).value.event.id != id)
        && Unhandled(u, Move(u, w, steps[0]), steps[1..], id))
  }

  lemma {:induction false} UnhandledAsksOthers(u: Setup, w: World, steps: seq<Step>, m: C.Message)
    requires Sound(u, w) && forall a | a in steps :: Proper(u, a) && Foreign(a, m.eventId)
    requires Unhandled(u, w, steps, m.eventId)
    ensures forall act | act in AllAsked(u, w, steps) :: LT.OtherEvent(m, act)
    decreases |steps|
  {
    if steps != [] {
      assert Proper(u, steps[0]) && Foreign(steps[0], m.eventId);
      if Handed(w, steps[0]).Some? {
        HandedIsWrapped(u, w, steps[0]);
      }
      MoveIsSound(u, w, steps[0]);
      UnhandledAsksOthers(u, Move(u, w, steps[0]), steps[1..], m);
    }
  }

  /** The step handles a request that carries this quote. */
  predicate Carries(w: World, a: Step, m: C.Message) {
    Handed(w, a).Some? && Handed(w, a).value.event.body == Quote(m)
  }

  lemma CarriedIsIngested(u: Setup, w: World, a: Step, m: C.Message)
    requires Shaped(w) && Carries(w, a, m)
    ensures var x := Handed(w, a).value;
            Move(u, w, a).server == C.Ingest(u.cfg, w.server, m, x.clock, x.fault).0
  {
    HandedMoves(u, w, a);
  }

  /** The quote was published by the request `first` handled after `before`. */
  ghost predicate Published(u: Setup, before: seq<Step>, first: Step, m: C.Message) {
    && (forall a | a in before :: Proper(u, a)) && Carries(Run(u, NEW, before), first, m)
    && var x := Handed(Run(u, NEW, before), first).value;
       LT.PublishedFirst(u.cfg, Run(u, NEW, before).server, m, x.clock, x.fault)
  }

  /** The collector's run up to and after that request is one its own theorems speak of. */
  lemma PathFrom(u: Setup, before: seq<Step>, first: Step, m: C.Message, between: seq<Step>)
    requires Published(u, before, first, m) && forall a | a in between :: Proper(u, a)
    ensures var w := Run(u, NEW, before);
            var x := Handed(w, first).value;
            var acts, more := AllAsked(u, NEW, before), AllAsked(u, Move(u, w, first), between);
            && w.server == CL.Run(u.cfg, C.EMPTY, acts)
            && Run(u, Move(u, w, first), between).server
               == LT.Later(u.cfg, acts, m, x.clock, x.fault, more)
            && (forall act | act in acts + more :: CL.Identified(u.connOf, act))
            && Wrapped(u, x.event) && Sound(u, Move(u, w, first))
  {
    var w := Run(u, NEW, before);
    NewIsSound(u);
    RunIsSound(u, NEW, before);
    HandedIsWrapped(u, w, first);
    AllAskedMove(u, NEW, before);
    AllAskedIdentified(u, NEW, before);
    CarriedIsIngested(u, w, first, m);
    MoveIsSound(u, w, first);
    AllAskedMove(u, Move(u, w, first), between);
    AllAskedIdentified(u, Move(u, w, first), between);
  }

  /** The first request got past the tick store; or it failed before the raw store, and the
      second, handled by the lease holder and past the tick store, is in time and still
      beyond everything known of its key. */
  ghost predicate StoredAgain(u: Setup, m: C.Message, x: Attempt, s: C.Server, y: Attempt) {
    || LT.PastTickStore(x.fault)
    || (&& x.fault == C.BeforeRaw && LT.PastTickStore(y.fault)
        && LT.HoldsLease(u.cfg, s, m, y.clock)
        && m.sequence.Some?
        && LT.Advances(u.cfg.adapter, C.Greet(u.cfg, s, m, y.clock).col.adapter, m,
                       C.LastSequence(s.db.ticks, m.doc, m.instrument))
        && LT.InDelay(u.cfg.adapter, m, y.clock.received))
  }

  /** The exact extent of the loss, on the whole path. A quote was published by one request,
      and another request of it is handled, in time or late, after any steps in which none
      was: its tick is stored if and only if `StoredAgain` holds of the two requests. */
  lemma RetriedTickStoredExactlyWhen(
      u: Setup, before: seq<Step>, first: Step, m: C.Message, between: seq<Step>, second: Step)
    requires Published(u, before, first, m)
    requires forall a | a in between :: Proper(u, a) && Foreign(a, m.eventId)
    requires Unhandled(u, Move(u, Run(u, NEW, before), first), between, m.eventId)
    requires Carries(Run(u, Move(u, Run(u, NEW, before), first), between), second, m)
    ensures var w := Run(u, NEW, before);
            var w2 := Run(u, Move(u, w, first), between);
            var x, y := Handed(w, first).value, Handed(w2, second).value;
            LT.HasTick(Move(u, w2, second).server.db, m.eventId) <==> StoredAgain(u, m, x, w2.server, y)
  {
    var w := Run(u, NEW, before);
    var w1 := Move(u, w, first);
    var w2 := Run(u, w1, between);
    var x, y := Handed(w, first).value, Handed(w2, second).value;
    PathFrom(u, before, first, m, between);
    UnhandledAsksOthers(u, w1, between, m);
    CarriedIsIngested(u, w2, second, m);
    CollectorRetry(u, AllAsked(u, NEW, before), m, x, AllAsked(u, w1, between), y);
  }

  lemma CollectorRetry(u: Setup, acts: seq<C.Step>, m: C.Message, x: Attempt, more: seq<C.Step>, y: Attempt)
    requires forall act | act in acts + more :: CL.Identified(u.connOf, act)
    requires m.session == m.doc && m.conn == u.connOf(m.session)
    requires LT.PublishedFirst(u.cfg, CL.Run(u.cfg, C.EMPTY, acts), m, x.clock, x.fault)
    requires forall act | act in more :: LT.OtherEvent(m, act)
    ensures var s2 := LT.Later(u.cfg, acts, m, x.clock, x.fault, more);
            LT.HasTick(C.Ingest(u.cfg, s2, m, y.clock, y.fault).0.db, m.eventId) <==> StoredAgain(u, m, x, s2, y)
  {
    LT.RetryPublishesExactlyWhen(u.connOf, u.cfg, acts, m, x.clock, x.fault, more, y.clock, y.fault);
  }

  /** A quote published by a request that failed between raw and tick store keeps its raw row
      and never gets its tick, in every continuation of browser, network and collector. */
  lemma LostForEver(u: Setup, before: seq<Step>, first: Step, m: C.Message, more: seq<Step>)
    requires Published(u, before, first, m)
    requires Handed(Run(u, NEW, before), first).value.fault == C.AfterRaw
    ensures var db := Run(u, Move(u, Run(u, NEW, before), first), more).server.db;
            C.HasRaw(db, m.eventId) && !LT.HasTick(db, m.eventId)
  {
    var w := Run(u, NEW, before);
    CarriedIsIngested(u, w, first, m);
    AllAskedMove(u, NEW, before);
    AllAskedMove(u, Move(u, w, first), more);
    LT.AfterRawLosesForEver(u.cfg, AllAsked(u, NEW, before), m, Handed(w, first).value.clock,
                            AllAsked(u, Move(u, w, first), more));
  }

  // ---------------------------------------------- a quote waits at the head

  /** The event is the head of its group, and no answer is about to remove it. */
  ghost predicate Waits(out: O.World<Body>, e: O.Event<Body>) {
    && O.Find(out.events, O.GroupOf(e)).Some?
    && O.Find(out.events, O.GroupOf(e)).value.id == e.id
    && O.Find(out.events, O.GroupOf(e)).value.body == e.body
    && (out.phase.Answered? && out.phase.event.id == e.id ==> out.phase.outcome.RetryAt?)
  }

  /** No attempt of this event reaches the collector or is refused. */
  predicate Unreached(u: Setup, w: World, steps: seq<Step>, id: nat)
    requires Shaped(w)
    decreases |steps|
  {
    steps == []
    || (&& (steps[0].Deliver? && w.out.phase.InFlight? && w.out.phase.event.id == id ==> steps[0].fate.Lost?)
        && Unreached(u, Move(u, w, steps[0]), steps[1..], id))
  }

  lemma OutFacts(u: Setup, w: World)
    requires Sound(u, w) && (w.out.phase.InFlight? || w.out.phase.Answered?)
    ensures OW.Leads(w.out, w.out.phase.event) && OL.DistinctIds(w.out.events)
    ensures Wrapped(u, w.out.phase.event)
  {
    OT.MoveStaysReachable(u.maxSize, w.out, O.Load);
    OutIsPending(u, w);
  }

  lemma HeadsOfGroup(u: Setup, w: World, e: O.Event<Body>)
    requires Sound(u, w) && Waits(w.out, e) && (w.out.phase.InFlight? || w.out.phase.Answered?)
    ensures w.out.phase.event.id == e.id <==> O.GroupOf(w.out.phase.event) == O.GroupOf(e)
    ensures w.out.phase.event.id == e.id ==> w.out.phase.event.body == e.body
  {
    OutFacts(u, w);
    var x, g := w.out.phase.event, O.GroupOf(e);
    var head := O.Find(w.out.events, g).value;
    OL.FindIsHead(w.out.events, g);
    OL.FindIsHead(w.out.events, O.GroupOf(x));
    if x.id == e.id {
      var j :| 0 <= j < |w.out.events| && w.out.events[j] == x;
      var k :| 0 <= k < |w.out.events| && w.out.events[k] == head;
      assert j == k;
    }
  }

  lemma CommitKeepsWaiting(u: Setup, w: World, e: O.Event<Body>)
    requires Sound(u, w) && Waits(w.out, e) && w.out.phase.Answered?
    ensures Waits(O.DoCommit(w.out, w.out.phase.event, w.out.phase.outcome), e)
  {
    OutFacts(u, w);
    HeadsOfGroup(u, w, e);
    var x, o, g := w.out.phase.event, w.out.phase.outcome, O.GroupOf(e);
    if x.id == e.id {
      OW.LeaderIsFound(w.out, x);
      OL.FindUpdate(w.out.events, O.IndexOf(w.out.events, x.id), O.Retry(x, o.time), g);
    } else {
      OT.CommitKeepsOtherHead(w.out, x, o, g);
    }
  }

  lemma BridgeKeepsWaiting(u: Setup, w: World, step: O.Step<Body>, e: O.Event<Body>)
    requires Sound(u, w) && Waits(w.out, e) && !step.Answer?
    ensures Waits(O.Move(u.maxSize, w.out, step), e)
  {
    match step {
      case Commit => if w.out.phase.Answered? { CommitKeepsWaiting(u, w, e); }
      case Enqueue(x) => OL.FindAppend(w.out.events, [x], O.GroupOf(e));
      case StartDrain =>
      case Load =>
      case Decide(_) =>
      case Scheduled =>
      case Crash =>
    }
  }

  lemma MoveKeepsWaiting(u: Setup, w: World, a: Step, e: O.Event<Body>)
    requires Sound(u, w) && Waits(w.out, e)
    requires a.Deliver? && w.out.phase.InFlight? && w.out.phase.event.id == e.id ==> a.fate.Lost?
    ensures Waits(Move(u, w, a).out, e)
  {
    match a {
      case Bridge(step) => if !step.Answer? { BridgeKeepsWaiting(u, w, step, e); }
      case Deliver(fate, retryAt) => if w.out.phase.InFlight? { DeliverShows(u, w, fate, retryAt); }
      case Late(_, _, _, _) =>
      case Elsewhere(_) =>
    }
  }

  lemma DeliverShows(u: Setup, w: World, fate: Fate, retryAt: int)
    requires Shaped(w) && w.out.phase.InFlight?
    ensures var w1 := Move(u, w, Deliver(fate, retryAt));
            && w1.out.events == w.out.events
            && w1.out.phase.Answered? && w1.out.phase.event == w.out.phase.event
            && (fate.Lost? ==> w1.out.phase.outcome == O.RetryAt(retryAt))
  {
    AnswerShows(u.maxSize, w.out, O.Acked);
    AnswerShows(u.maxSize, w.out, O.Refused);
    AnswerShows(u.maxSize, w.out, O.RetryAt(retryAt));
  }

  /** A step of a run whose requests are handled before their client gives up on them, and in
      which other documents ask nothing about this event. */
  ghost predicate Prompt(u: Setup, a: Step, id: nat) {
    Exclusive(u, a) && Foreign(a, id) && !a.Late?
  }

  lemma AskedIsOther(u: Setup, w: World, a: Step, e: O.Event<Body>)
    requires Sound(u, w) && Prompt(u, a, e.id) && Waits(w.out, e) && Wrapped(u, e) && e.body.Quote?
    requires a.Deliver? && w.out.phase.InFlight? && w.out.phase.event.id == e.id ==> a.fate.Lost?
    ensures forall act | act in Asked(w, a) :: LT.OtherPair(e.body.message, act)
  {
    if a.Deliver? && w.out.phase.InFlight? {
      OutFacts(u, w);
      HeadsOfGroup(u, w, e);
    }
  }

  /** While a quote waits for its next attempt, the collector is asked nothing about its event
      or about its document and pair. */
  lemma {:induction false} HeldBack(u: Setup, w: World, steps: seq<Step>, e: O.Event<Body>)
    requires Sound(u, w) && Waits(w.out, e) && Wrapped(u, e) && e.body.Quote?
    requires forall a | a in steps :: Prompt(u, a, e.id)
    requires Unreached(u, w, steps, e.id)
    ensures forall act | act in AllAsked(u, w, steps) :: LT.OtherPair(e.body.message, act)
    ensures Sound(u, Run(u, w, steps)) && Waits(Run(u, w, steps).out, e)
    decreases |steps|
  {
    if steps != [] {
      assert Prompt(u, steps[0], e.id);
      AskedIsOther(u, w, steps[0], e);
      MoveKeepsWaiting(u, w, steps[0], e);
      MoveIsSound(u, w, steps[0]);
      HeldBack(u, Move(u, w, steps[0]), steps[1..], e);
    }
  }

  // ---------------------------------------------------------- two attempts

  /** The request `first` of the event in flight published the quote, and its answer was lost
      or a failure. */
  ghost predicate Attempted(u: Setup, before: seq<Step>, first: Step, m: C.Message) {
    && Published(u, before, first, m) && first.Deliver?
    && (first.fate.answerArrives ==>
          C.Ingest(u.cfg, Run(u, NEW, before).server, m, first.fate.clock, first.fate.fault).1 == C.Failed)
  }

  lemma AttemptedWaits(u: Setup, before: seq<Step>, first: Step, m: C.Message)
    requires Attempted(u, before, first, m)
    ensures var w := Run(u, NEW, before);
            && w.out.phase.InFlight? && w.out.phase.event.body == Quote(m)
            && Wrapped(u, w.out.phase.event)
            && Sound(u, Move(u, w, first)) && Waits(Move(u, w, first).out, w.out.phase.event)
  {
    var w := Run(u, NEW, before);
    NewIsSound(u);
    RunIsSound(u, NEW, before);
    OutFacts(u, w);
    UnsettledWaits(u, w, first, m);
    MoveIsSound(u, w, first);
  }

  lemma UnsettledWaits(u: Setup, w: World, first: Step, m: C.Message)
    requires Sound(u, w) && Carries(w, first, m) && first.Deliver?
    requires OW.Leads(w.out, w.out.phase.event)
    requires first.fate.answerArrives ==>
               C.Ingest(u.cfg, w.server, m, first.fate.clock, first.fate.fault).1 == C.Failed
    ensures Waits(Move(u, w, first).out, w.out.phase.event)
  {
    DeliverShows(u, w, first.fate, first.retryAt);
    CarriedIsAnswered(u, w, first, m);
  }

  lemma CarriedIsAnswered(u: Setup, w: World, a: Step, m: C.Message)
    requires Shaped(w) && Carries(w, a, m) && a.Deliver?
    requires a.fate.answerArrives ==> C.Ingest(u.cfg, w.server, m, a.fate.clock, a.fate.fault).1 == C.Failed
    ensures Move(u, w, a).out.phase == O.Answered(w.out.phase.event, O.RetryAt(a.retryAt))
  {
    AnswerShows(u.maxSize, w.out, O.RetryAt(a.retryAt));
  }

  /** The event is out for its next attempt after `between`: then that attempt carries the
      quote, and the collector was asked nothing about its document and pair. */
  lemma SecondAttempt(u: Setup, before: seq<Step>, first: Step, m: C.Message, between: seq<Step>, second: Step)
    requires Attempted(u, before, first, m)
    requires forall a | a in between :: Prompt(u, a, m.eventId)
    requires Unreached(u, Move(u, Run(u, NEW, before), first), between, m.eventId)
    requires var w2 := Run(u, Move(u, Run(u, NEW, before), first), between);
             w2.out.phase.InFlight? && w2.out.phase.event.id == m.eventId && second.Deliver? && second.fate.Handled?
    ensures var w1 := Move(u, Run(u, NEW, before), first);
            && Carries(Run(u, w1, between), second, m)
            && forall act | act in AllAsked(u, w1, between) :: LT.OtherPair(m, act)
  {
    var w := Run(u, NEW, before);
    var w1 := Move(u, w, first);
    AttemptedWaits(u, before, first, m);
    HeldBack(u, w1, between, w.out.phase.event);
    HeadsOfGroup(u, Run(u, w1, between), w.out.phase.event);
  }

  /** Where no request is handled late, the extent is shorter: a quote was published by an
      attempt whose answer did not reach the outbox as a success, and is delivered again
      after any steps in which no attempt of it reached the collector. Its tick is stored if
      and only if the first attempt got past the tick store; or it failed before the raw
      store and the retry, handled by the lease holder and past the tick store, finds no live
      quote of its key and is in time. */
  lemma DeliveredTickStoredExactlyWhen(
      u: Setup, before: seq<Step>, first: Step, m: C.Message, between: seq<Step>, second: Step)
    requires Attempted(u, before, first, m)
    requires forall a | a in between :: Prompt(u, a, m.eventId)
    requires Unreached(u, Move(u, Run(u, NEW, before), first), between, m.eventId)
    requires var w2 := Run(u, Move(u, Run(u, NEW, before), first), between);
             w2.out.phase.InFlight? && w2.out.phase.event.id == m.eventId && second.Deliver? && second.fate.Handled?
    ensures var w2 := Run(u, Move(u, Run(u, NEW, before), first), between);
            LT.HasTick(Move(u, w2, second).server.db, m.eventId) <==>
              || LT.PastTickStore(first.fate.fault)
              || (&& first.fate.fault == C.BeforeRaw && LT.PastTickStore(second.fate.fault)
                  && LT.HoldsLease(u.cfg, w2.server, m, second.fate.clock)
                  && LT.KeyOf(m) !in C.Greet(u.cfg, w2.server, m, second.fate.clock).col.adapter.quotes
                  && LT.InDelay(u.cfg.adapter, m, second.fate.clock.received))
  {
    var w := Run(u, NEW, before);
    var w1 := Move(u, w, first);
    assert forall a | a in between :: Prompt(u, a, m.eventId) ==> Proper(u, a);
    SecondAttempt(u, before, first, m, between, second);
    PathFrom(u, before, first, m, between);
    CarriedIsIngested(u, Run(u, w1, between), second, m);
    LT.TickStoredExactlyWhen(u.connOf, u.cfg, AllAsked(u, NEW, before), m, first.fate.clock, first.fate.fault,
                             AllAsked(u, w1, between), second.fate.clock, second.fate.fault);
  }
}

/** The outbox class. Each method is proved to make one step, or a whole drain, of the
    machine in OutboxModel, so every law of that machine holds of the class. */
module PersistentOutboxClass {
  import opened Wrappers
  import opened Instruments
  import opened OutboxModel
  import opened OutboxLists
  import opened OutboxLaws
  import opened OutboxTheorems
  import opened OutboxAnswers
  import RR = RoundRobin

  /** The surroundings during one turn of the drain loop: the clock, the answer to the
      delivery, and the events other code enqueues in each window the loop leaves open. */
  datatype Turn<+B> = Turn(
    beforeLoad: seq<Event<B>>,
    afterLoad: seq<Event<B>>,
    decideAt: int,
    inFlight: seq<Event<B>>,
    delivery: Delivery,
    answeredAt: int,
    beforeCommit: seq<Event<B>>)

  /** Acknowledged, or refused for good. */
  predicate Final(d: Delivery) {
    d.Result? && (d.acknowledged || !d.retryable)
  }

  function Arrivals<B>(turn: nat -> Turn<B>, k: nat, n: nat): seq<Event<B>>
    decreases n - k
  {
    if k >= n then []
    else
      var t := turn(k);
      t.beforeLoad + (t.afterLoad + (t.inFlight + (t.beforeCommit + Arrivals(turn, k + 1, n))))
  }

  lemma ArrivalsUnfold<B>(turn: nat -> Turn<B>, k: nat, n: nat)
    requires forall j: nat :: j >= n ==> Quiet(turn(j))
    ensures var t := turn(k);
            Arrivals(turn, k, n)
            == t.beforeLoad + (t.afterLoad + (t.inFlight + (t.beforeCommit + Arrivals(turn, k + 1, n))))
  {
    if k >= n {
      assert Quiet(turn(k));
    }
  }

  ghost predicate Quiet<B>(t: Turn<B>) {
    t.beforeLoad == [] && t.afterLoad == [] && t.inFlight == [] && t.beforeCommit == []
  }

  /** Ids nobody used yet. */
  ghost predicate Fresh<B>(w: World<B>, upcoming: seq<Event<B>>) {
    DistinctIds(upcoming) && Ids(upcoming) !! Ids(w.hist.produced)
  }

  function Enqueues<B>(s: seq<Event<B>>): seq<Step<B>> {
    if s == [] then [] else [Enqueue(s[0])] + Enqueues(s[1..])
  }

  /** Pending events that the running drain has not attempted. */
  ghost function Unattempted<B>(w: World<B>): nat {
    |Ids(w.events) - w.attempted|
  }

  lemma DistinctCons<B>(e: Event<B>, rest: seq<Event<B>>)
    requires DistinctIds([e] + rest)
    ensures DistinctIds(rest) && e.id !in Ids(rest)
    ensures Ids(rest) + {e.id} <= Ids([e] + rest)
  {
    var s := [e] + rest;
    assert s[0] == e;
    assert forall k | 0 <= k < |rest| :: rest[k] == s[k + 1];
    forall k | 0 <= k < |rest| ensures rest[k].id in Ids(s) {
      assert s[k + 1].id in Ids(s);
    }
  }

  lemma FreshTail<B>(maxSize: nat, w: World<B>, e: Event<B>, rest: seq<Event<B>>)
    requires Shaped(w) && Fresh(w, [e] + rest)
    ensures e.id !in Ids(w.hist.produced)
    ensures Fresh(Move(maxSize, w, Enqueue(e)), rest)
  {
    DistinctCons(e, rest);
    IdsSnoc(w.hist.produced, e);
    assert Move(maxSize, w, Enqueue(e)).hist.produced == w.hist.produced + [e];
  }

  lemma EnqueueAddsOneUnattempted<B>(maxSize: nat, w: World<B>, e: Event<B>)
    requires Shaped(w)
    ensures Unattempted(Move(maxSize, w, Enqueue(e))) <= Unattempted(w) + 1
  {
    IdsSnoc(w.events, e);
    var w1 := Move(maxSize, w, Enqueue(e));
    SubsetSize(Ids(w1.events) - w1.attempted, (Ids(w.events) - w.attempted) + {e.id});
  }

  /** Delivering an event uses up one unattempted event. */
  lemma DecidingAttemptsOne<B(!new)>(maxSize: nat, w: World<B>, now: int)
    requires Shaped(w) && Reachable(maxSize, w) && w.phase.Loaded?
    requires Move(maxSize, w, Decide(now)).phase.InFlight?
    ensures Unattempted(Move(maxSize, w, Decide(now))) < Unattempted(w)
  {
    MoveStaysReachable(maxSize, w, Decide(now));
    var w1 := Move(maxSize, w, Decide(now));
    var k := OutboxModel.SelectNext(w.phase.snapshot, w.attempted, now, w.cursor).value;
    ChosenLeads(w, GROUPS[k]);
    AttemptingOne(w, w1, Find(w.phase.snapshot, GROUPS[k]).value, GROUPS[k]);
  }

  lemma AttemptingOne<B>(w: World<B>, w1: World<B>, e: Event<B>, g: Group)
    requires Find(w.events, g) == Some(e) && e.id !in w.attempted
    requires w1.events == w.events && w1.attempted == w.attempted + {e.id}
    ensures Unattempted(w1) < Unattempted(w)
  {
    FindIsHead(w.events, g);
    var k :| 0 <= k < |w.events| && w.events[k] == e;
    assert e.id in Ids(w.events) - w.attempted;
    assert Ids(w1.events) - w1.attempted == (Ids(w.events) - w.attempted) - {e.id};
  }

  lemma CommitAddsNoIds<B>(w: World<B>, e: Event<B>, o: Outcome)
    requires Shaped(w) && DistinctIds(w.events) && Leads(w, e)
    ensures Ids(DoCommit(w, e, o).events) <= Ids(w.events)
  {
    LeaderIsFound(w, e);
    if o.RetryAt? {
      UpdateIds(w.events, IndexOf(w.events, e.id), Retry(e, o.time));
    } else {
      WithoutMembers(w.events, e.id);
    }
  }

  lemma LeaderOf<B(!new)>(maxSize: nat, w: World<B>)
    requires Reachable(maxSize, w) && w.phase.Answered?
    ensures DistinctIds(w.events) && Leads(w, w.phase.event)
  {
    var steps: seq<Step<B>> :| w == Reached(maxSize, steps);
    ReachedIsGood(maxSize, steps);
  }

  lemma SettlingAttemptsNone<B(!new)>(maxSize: nat, w: World<B>)
    requires Shaped(w) && Reachable(maxSize, w) && w.phase.Answered?
    ensures Unattempted(Move(maxSize, w, Commit)) <= Unattempted(w)
    ensures var w1 := Move(maxSize, w, Commit);
            && w1.phase == Loading && w1.attempted == w.attempted
            && w1.hist.drainFrom == w.hist.drainFrom && w1.hist.alarms == w.hist.alarms
            && w1.hist.produced == w.hist.produced
            && w1.hist.delivered == w.hist.delivered
  {
    LeaderOf(maxSize, w);
    CommitShows(w, w.phase.event, w.phase.outcome);
    CommitAddsNoIds(w, w.phase.event, w.phase.outcome);
    FewerUnattempted(w, Move(maxSize, w, Commit));
  }

  /** What a commit leaves alone, whatever the answer was. */
  lemma CommitShows<B>(w: World<B>, e: Event<B>, o: Outcome)
    requires Shaped(w)
    ensures var w1 := DoCommit(w, e, o);
            && w1.phase == Loading && w1.attempted == w.attempted
            && w1.hist.drainFrom == w.hist.drainFrom && w1.hist.alarms == w.hist.alarms
            && w1.hist.produced == w.hist.produced
            && w1.hist.delivered == w.hist.delivered
  {
  }

  lemma SettlingShows<B(!new)>(maxSize: nat, w: World<B>, w1: World<B>, e: Event<B>, d: Delivery, at: int)
    requires Shaped(w1) && Reachable(maxSize, w) && Reachable(maxSize, w1) && w.phase == InFlight(e)
    requires w1.phase == Answered(e, OutcomeOf(e, d, at)) && w.events <= w1.events && SameFates(w, w1)
    ensures var w2 := Move(maxSize, w1, Commit);
            Joins(w, w2, e, d) && InPlace(w.events, w2.events, e, d, at)
  {
    LeaderOf(maxSize, w1);
    InFlightIsPending(maxSize, w);
    CommitSettles(w1, e, d, at);
    InPlaceAfter(w.events, w1.events, Move(maxSize, w1, Commit).events, e, d, at);
  }

  lemma InFlightIsPending<B(!new)>(maxSize: nat, w: World<B>)
    requires Reachable(maxSize, w) && w.phase.InFlight?
    ensures w.phase.event in w.events && DistinctIds(w.events)
  {
    var steps: seq<Step<B>> :| w == Reached(maxSize, steps);
    ReachedIsGood(maxSize, steps);
    LeaderIsFound(w, w.phase.event);
  }

  lemma SettlesAfter<B(!new)>(
      maxSize: nat, w: World<B>, w1: World<B>, w2: World<B>, e: Event<B>, d: Delivery, at: int)
    requires Reachable(maxSize, w) && Reachable(maxSize, w1) && w.phase == w1.phase == InFlight(e)
    requires w.events <= w1.events && SameFates(w, w1)
    requires Joins(w1, w2, e, d) && InPlace(w1.events, w2.events, e, d, at)
    ensures Joins(w, w2, e, d) && InPlace(w.events, w2.events, e, d, at)
  {
    InFlightIsPending(maxSize, w);
    InFlightIsPending(maxSize, w1);
    InPlaceAfter(w.events, w1.events, w2.events, e, d, at);
  }

  /** What one round of the loop did to the event it delivered, and to no other. */
  ghost predicate Turned<B>(w: World<B>, w1: World<B>, e: Event<B>, d: Delivery, at: int) {
    w1.hist.delivered == w.hist.delivered + [e] && Joins(w, w1, e, d) && Answers(w.events, w1.events, e, d, at)
  }

  function AnswersUpTo<B>(turn: nat -> Turn<B>, k: nat): seq<Delivery> {
    seq(k, j requires 0 <= j < k => turn(j).delivery)
  }

  /** What k rounds did: the j-th delivery met the j-th answer. */
  ghost predicate Drained<B>(w: World<B>, w1: World<B>, turn: nat -> Turn<B>, k: nat) {
    && w.hist.delivered <= w1.hist.delivered && |w1.hist.delivered| == |w.hist.delivered| + k
    && var sent, answers := w1.hist.delivered[|w.hist.delivered|..], AnswersUpTo(turn, k);
       && w1.hist.acked == w.hist.acked + Those(answers, sent, Acknowledges)
       && w1.hist.rejected == w.hist.rejected + Those(answers, sent, Refuses)
       && w1.hist.retried == w.hist.retried + Those(answers, sent, Postpones)
       && forall j | 0 <= j < k && Postpones(turn(j).delivery) ::
            Postponed(sent[j], turn(j).answeredAt) in w1.events
  }

  lemma ThoseSnoc<B>(turn: nat -> Turn<B>, sent: seq<Event<B>>, e: Event<B>, such: Delivery -> bool)
    ensures Those(AnswersUpTo(turn, |sent| + 1), sent + [e], such)
            == Those(AnswersUpTo(turn, |sent|), sent, such) + (if such(turn(|sent|).delivery) then [e] else [])
  {
    assert (sent + [e])[..|sent|] == sent;
    ThoseOfFirst(AnswersUpTo(turn, |sent|), AnswersUpTo(turn, |sent| + 1), sent, such);
  }

  lemma {:induction false} ThoseOfFirst<B>(a: seq<Delivery>, b: seq<Delivery>, sent: seq<Event<B>>, such: Delivery -> bool)
    requires |sent| <= |a| && a <= b
    ensures Those(a, sent, such) == Those(b, sent, such)
  {
    if sent != [] {
      ThoseOfFirst(a, b, sent[..|sent| - 1], such);
    }
  }

  lemma DrainsOn<B>(w: World<B>, w1: World<B>, w2: World<B>, turn: nat -> Turn<B>, k: nat, e: Event<B>)
    requires Drained(w, w1, turn, k) && Turned(w1, w2, e, turn(k).delivery, turn(k).answeredAt)
    requires DistinctIds(w2.hist.delivered[|w.hist.delivered|..])
    ensures Drained(w, w2, turn, k + 1)
  {
    var sent := w1.hist.delivered[|w.hist.delivered|..];
    SentSnoc(w.hist.delivered, w1.hist.delivered, e);
    ListGrows(w.hist.acked, w1.hist.acked, w2.hist.acked, turn, sent, e, Acknowledges);
    ListGrows(w.hist.rejected, w1.hist.rejected, w2.hist.rejected, turn, sent, e, Refuses);
    ListGrows(w.hist.retried, w1.hist.retried, w2.hist.retried, turn, sent, e, Postpones);
    StillPostponed(w1.events, w2.events, turn, sent, e);
  }

  lemma SentSnoc<B>(before: seq<Event<B>>, sent: seq<Event<B>>, e: Event<B>)
    requires before <= sent
    ensures (sent + [e])[|before|..] == sent[|before|..] + [e] && before <= sent + [e]
  {
  }

  /** One of the three lists after one more answer. */
  lemma ListGrows<B>(
      a: seq<Event<B>>, b: seq<Event<B>>, c: seq<Event<B>>, turn: nat -> Turn<B>, sent: seq<Event<B>>, e: Event<B>,
      such: Delivery -> bool)
    requires b == a + Those(AnswersUpTo(turn, |sent|), sent, such)
    requires c == b + (if such(turn(|sent|).delivery) then [e] else [])
    ensures c == a + Those(AnswersUpTo(turn, |sent| + 1), sent + [e], such)
  {
    ThoseSnoc(turn, sent, e, such);
    Regroup(a, Those(AnswersUpTo(turn, |sent|), sent, such), if such(turn(|sent|).delivery) then [e] else []);
  }

  lemma Regroup<B>(a: seq<Event<B>>, b: seq<Event<B>>, c: seq<Event<B>>)
    ensures (a + b) + c == a + (b + c)
  {
  }

  lemma StillPostponed<B>(s: seq<Event<B>>, t: seq<Event<B>>, turn: nat -> Turn<B>, sent: seq<Event<B>>, e: Event<B>)
    requires DistinctIds(sent + [e])
    requires Answers(s, t, e, turn(|sent|).delivery, turn(|sent|).answeredAt)
    requires forall j | 0 <= j < |sent| && Postpones(turn(j).delivery) :: Postponed(sent[j], turn(j).answeredAt) in s
    ensures forall j | 0 <= j < |sent| + 1 && Postpones(turn(j).delivery) ::
              Postponed((sent + [e])[j], turn(j).answeredAt) in t
  {
    var sent2 := sent + [e];
    forall j | 0 <= j < |sent| + 1 && Postpones(turn(j).delivery)
      ensures Postponed(sent2[j], turn(j).answeredAt) in t
    {
      if j < |sent| {
        assert sent2[j] == sent[j] && sent2[|sent|] == e && sent2[j].id != sent2[|sent|].id;
        assert Postponed(sent[j], turn(j).answeredAt).id != e.id;
      }
    }
  }

  /** One more round. */
  lemma RoundDrains<B(!new)>(
      maxSize: nat, w: World<B>, w1: World<B>, w2: World<B>, turn: nat -> Turn<B>, k: nat, e: Event<B>)
    requires Drained(w, w1, turn, k) && Turned(w1, w2, e, turn(k).delivery, turn(k).answeredAt)
    requires Reachable(maxSize, w2) && w2.hist.drainFrom == |w.hist.delivered|
    ensures Drained(w, w2, turn, k + 1)
  {
    DrainedOnce(maxSize, w2);
    DrainsOn(w, w1, w2, turn, k, e);
  }

  /** What the whole drain has done when it stops. */
  ghost predicate Done<B>(w: World<B>, w1: World<B>, turn: nat -> Turn<B>, last: seq<Event<B>>, at: int) {
    && |w.hist.delivered| <= |w1.hist.delivered|
    && DistinctIds(w1.hist.delivered[|w.hist.delivered|..])
    && Drained(w, w1, turn, |w1.hist.delivered| - |w.hist.delivered|)
    && |w.hist.retried| <= |w1.hist.retried|
    && HeadsWait(last, at, w1.hist.retried[|w.hist.retried|..])
    && ((forall k: nat :: Final(turn(k).delivery)) ==>
          w1.hist.retried == w.hist.retried && HeadsWait(last, at, []))
  }

  lemma StoppedIsDone<B(!new)>(
      maxSize: nat, w: World<B>, w1: World<B>, w2: World<B>, turn: nat -> Turn<B>, k: nat,
      trace: seq<Step<B>>, last: seq<Event<B>>, at: int, alarm: Option<int>)
    requires Shaped(w) && Reachable(maxSize, w) && w.phase.Idle? && [StartDrain] <= trace
    requires w2 == Run(maxSize, w, trace) && Reachable(maxSize, w2) && w2.phase.Idle?
    requires Drained(w, w1, turn, k) && w1.events <= w2.events && SameFates(w1, w2)
    requires w2.hist.delivered == w1.hist.delivered && w2.hist.drainFrom == |w.hist.delivered|
    requires last <= w2.events && MayStop(last, w2.attempted, at, alarm)
    ensures Done(w, w2, turn, last, at)
  {
    DrainedStays(w, w1, w2, turn, k);
    DrainedOnce(maxSize, w2);
    DrainClears(maxSize, w, trace);
    StoppedHeadsWait(w2, last, |w.hist.retried|, at, alarm);
    if forall j: nat :: Final(turn(j).delivery) {
      FinalPostponesNone(turn, w2.hist.delivered[|w.hist.delivered|..]);
      assert w2.hist.retried[|w.hist.retried|..] == [];
    }
  }

  /** Arrivals change nothing of it. */
  lemma DrainedStays<B>(w: World<B>, w1: World<B>, w2: World<B>, turn: nat -> Turn<B>, k: nat)
    requires Drained(w, w1, turn, k) && w1.events <= w2.events && SameFates(w1, w2)
    requires w2.hist.delivered == w1.hist.delivered
    ensures Drained(w, w2, turn, k)
  {
  }

  lemma FinalPostponesNone<B>(turn: nat -> Turn<B>, sent: seq<Event<B>>)
    requires forall j: nat :: Final(turn(j).delivery)
    ensures Those(AnswersUpTo(turn, |sent|), sent, Postpones) == []
    decreases |sent|
  {
    if sent != [] {
      var k := |sent| - 1;
      FinalPostponesNone(turn, sent[..k]);
      ThoseOfFirst(AnswersUpTo(turn, k), AnswersUpTo(turn, |sent|), sent[..k], Postpones);
      assert Final(turn(k).delivery);
    }
  }

  lemma FewerUnattempted<B>(w: World<B>, w1: World<B>)
    requires w1.attempted == w.attempted && Ids(w1.events) <= Ids(w.events)
    ensures Unattempted(w1) <= Unattempted(w)
  {
    SubsetSize(Ids(w1.events) - w.attempted, Ids(w.events) - w.attempted);
  }

  /** A drain may stop here: nothing was loaded, or no head is due and unattempted and the
      alarm is the one for these heads. */
  ghost predicate MayStop<B>(s: seq<Event<B>>, attempted: set<nat>, now: int, alarm: Option<int>) {
    match alarm
    case None => s == []
    case Some(when) =>
      && s != [] && AlarmFor(s, now, when)
      && forall g: Group :: !Due(s, attempted, now, g)
  }

  /** Every group head is due later, or was put back by this drain. */
  ghost predicate HeadsWait<B>(s: seq<Event<B>>, now: int, retried: seq<Event<B>>) {
    forall g: Group :: Find(s, g).Some? ==>
      now < Find(s, g).value.nextAttemptAt || Find(s, g).value.id in Ids(retried)
  }

  lemma StoppedHeadsWait<B>(w: World<B>, s: seq<Event<B>>, from: nat, now: int, alarm: Option<int>)
    requires Cleared(w, from) && w.phase.Idle? && s <= w.events && MayStop(s, w.attempted, now, alarm)
    ensures HeadsWait(s, now, w.hist.retried[from..])
  {
    forall g: Group | Find(s, g).Some? && Find(s, g).value.nextAttemptAt <= now
      ensures Find(s, g).value.id in Ids(w.hist.retried[from..])
    {
      FindIsHead(s, g);
      assert !Due(s, w.attempted, now, g);
      var k :| 0 <= k < |s| && s[k] == Find(s, g).value;
      assert w.events[k] == s[k];
    }
  }

  /** What one decision can do, in the drain loop's terms. */
  lemma DecisionCases<B(!new)>(maxSize: nat, w: World<B>, now: int)
    requires Shaped(w) && Reachable(maxSize, w) && w.phase.Loaded?
    ensures var w1 := Move(maxSize, w, Decide(now));
            && w1.events == w.events && w1.hist.drainFrom == w.hist.drainFrom
            && w1.hist.alarms == w.hist.alarms && w1.hist.produced == w.hist.produced
            && SameFates(w, w1)
            && w1.hist.delivered == w.hist.delivered + (if w1.phase.InFlight? then [w1.phase.event] else [])
            && match w1.phase
               case Idle => MayStop(w.phase.snapshot, w.attempted, now, None) && w1.attempted == w.attempted
               case InFlight(e) => w1.attempted == w.attempted + {e.id} && Unattempted(w1) < Unattempted(w)
               case Scheduling(when) =>
                 MayStop(w.phase.snapshot, w.attempted, now, Some(when)) && w1.attempted == w.attempted
               case _ => false
  {
    DrainEnds(w, now);
    if Move(maxSize, w, Decide(now)).phase.InFlight? {
      DecidingAttemptsOne(maxSize, w, now);
    }
  }

  lemma DrainedOnce<B(!new)>(maxSize: nat, w: World<B>)
    requires Reachable(maxSize, w)
    ensures w.hist.drainFrom <= |w.hist.delivered| && DistinctIds(w.hist.delivered[w.hist.drainFrom..])
  {
    var steps: seq<Step<B>> :| w == Reached(maxSize, steps);
    ReachedIsGood(maxSize, steps);
  }

  lemma RunSingle<B>(maxSize: nat, w: World<B>, a: Step<B>)
    requires Shaped(w)
    ensures Run(maxSize, w, [a]) == Move(maxSize, w, a)
  {
    var rest := [a][1..];
    assert rest == [] && Run(maxSize, Move(maxSize, w, a), rest) == Move(maxSize, w, a);
  }

  lemma RunOn<B>(maxSize: nat, w: World<B>, trace: seq<Step<B>>, more: seq<Step<B>>)
    requires Shaped(w)
    ensures Shaped(Run(maxSize, w, trace))
    ensures Run(maxSize, w, trace + more) == Run(maxSize, Run(maxSize, w, trace), more)
  {
    RunConcat(maxSize, w, trace, more);
  }

  lemma RunOne<B>(maxSize: nat, w: World<B>, trace: seq<Step<B>>, w1: World<B>, a: Step<B>)
    requires Shaped(w) && Shaped(w1) && w1 == Run(maxSize, w, trace)
    ensures Move(maxSize, w1, a) == Run(maxSize, w, trace + [a])
  {
    RunSingle(maxSize, w1, a);
    RunConcat(maxSize, w, trace, [a]);
  }

  lemma DecisionShape<B>(maxSize: nat, w: World<B>, now: int)
    requires Shaped(w) && w.phase.Loaded?
    ensures var s, w1 := w.phase.snapshot, Move(maxSize, w, Decide(now));
            && w1.events == w.events && w1.stats == w.stats
            && (s == [] ==> w1.phase == Idle && w1.cursor == w.cursor)
            && (s != [] ==>
                  match OutboxModel.SelectNext(s, w.attempted, now, w.cursor)
                  case None =>
                    && w1.cursor == w.cursor
                    && w1.phase == Scheduling(if HeadTimes(s, 0) == [] then now else Max(now, Least(HeadTimes(s, 0))))
                  case Some(k) =>
                    && w1.cursor == (k + 1) % |GROUPS|
                    && Find(s, GROUPS[k]).Some? && w1.phase == InFlight(Find(s, GROUPS[k]).value))
  {
  }

  /** What enqueues leave alone. */
  ghost predicate OnlyArrivals<B>(w: World<B>, w1: World<B>) {
    && w1.phase == w.phase && w1.attempted == w.attempted && w1.cursor == w.cursor
    && w.events <= w1.events
    && w1.hist.delivered == w.hist.delivered && w1.hist.drainFrom == w.hist.drainFrom
    && w1.hist.alarms == w.hist.alarms && SameFates(w, w1)
  }

  lemma EnqueueArrives<B>(maxSize: nat, w: World<B>, w1: World<B>, e: Event<B>)
    requires Shaped(w1) && OnlyArrivals(w, w1)
    ensures OnlyArrivals(w, Move(maxSize, w1, Step.Enqueue(e)))
  {
  }

  lemma RunFirst<B>(maxSize: nat, w: World<B>, arrivals: seq<Event<B>>, k: nat)
    requires Shaped(w) && k < |arrivals|
    ensures Run(maxSize, w, Enqueues(arrivals[k..]))
            == Run(maxSize, Move(maxSize, w, Step.Enqueue(arrivals[k])), Enqueues(arrivals[k + 1..]))
  {
    var rest := arrivals[k + 1..];
    var steps := Enqueues(arrivals[k..]);
    assert arrivals[k..][1..] == rest;
    assert steps == [Step.Enqueue(arrivals[k])] + Enqueues(rest);
    assert steps[1..] == Enqueues(rest);
  }

  /** After k of the arrivals. */
  ghost predicate Admitted<B>(
      maxSize: nat, w: World<B>, w1: World<B>, arrivals: seq<Event<B>>, later: seq<Event<B>>, k: nat)
    requires Shaped(w) && Shaped(w1) && k <= |arrivals|
  {
    && Fresh(w1, arrivals[k..] + later)
    && Run(maxSize, w, Enqueues(arrivals)) == Run(maxSize, w1, Enqueues(arrivals[k..]))
    && OnlyArrivals(w, w1)
    && Unattempted(w1) + |arrivals| - k <= Unattempted(w) + |arrivals|
  }

  lemma AdmitsNext<B>(
      maxSize: nat, w: World<B>, w1: World<B>, arrivals: seq<Event<B>>, later: seq<Event<B>>, k: nat)
    requires Shaped(w) && Shaped(w1) && k < |arrivals| && Admitted(maxSize, w, w1, arrivals, later, k)
    ensures arrivals[k].id !in Ids(w1.hist.produced)
    ensures Admitted(maxSize, w, Move(maxSize, w1, Step.Enqueue(arrivals[k])), arrivals, later, k + 1)
  {
    var rest := arrivals[k + 1..];
    assert arrivals[k..] + later == [arrivals[k]] + (rest + later);
    FreshTail(maxSize, w1, arrivals[k], rest + later);
    EnqueueAddsOneUnattempted(maxSize, w1, arrivals[k]);
    RunFirst(maxSize, w1, arrivals, k);
    EnqueueArrives(maxSize, w, w1, arrivals[k]);
  }

  class PersistentOutbox<B(!new)> {
    const maxSize: nat
    var events: seq<Event<B>>
    var stats: Stats
    var cursor: nat
    ghost var world: World<B>

    ghost predicate Valid()
      reads this
    {
      && Shaped(world) && Reachable(maxSize, world)
      && events == world.events && stats == world.stats && cursor == world.cursor
    }

    constructor (maxSize: nat)
      ensures Valid() && world == Start<B>() && this.maxSize == maxSize
    {
      this.maxSize := maxSize;
      events := [];
      stats := EmptyStats();
      cursor := 0;
      world := Start<B>();
      new;
      assert world == Reached(maxSize, []);
    }

    method Enqueue(e: Event<B>) returns (queued: bool)
      requires Valid() && e.id !in Ids(world.hist.produced)
      modifies this
      ensures Valid() && world == Move(maxSize, old(world), Step.Enqueue(e))
      ensures queued <==>
                |old(events)| < maxSize
                && (Alike(old(events), e) == {} || |Alike(old(events), e)| < maxSize / 5)
      ensures events == old(events) + (if queued then [e] else [])
      ensures stats.total == old(stats).total.(produced := old(stats).total.produced + 1,
                                               dropped := old(stats).total.dropped + (if queued then 0 else 1))
    {
      RoomExactlyWhen(maxSize, events, e);
      MoveReaches(maxSize, world, Step.Enqueue(e));
      world := Move(maxSize, world, Step.Enqueue(e));
      stats := Increment(stats, e, Produced);
      var groupCapacity := Max(1, maxSize / |GROUPS|);
      var groupDepth := |GroupIds(GroupOf(e), events)|;
      if |events| >= maxSize || groupDepth >= groupCapacity {
        stats := Increment(stats, e, Dropped);
        return false;
      }
      events := events + [e];
      return true;
    }

    /** Moves the cursor past the group it picks. */
    method SelectNext(snapshot: seq<Event<B>>, attempted: set<nat>, now: int)
      returns (chosen: Option<Event<B>>)
      requires cursor < |GROUPS|
      modifies this`cursor
      ensures var r := OutboxModel.SelectNext(snapshot, attempted, now, old(cursor));
              match r
              case None => chosen == None && cursor == old(cursor)
              case Some(k) => chosen == Find(snapshot, GROUPS[k]) && cursor == (k + 1) % |GROUPS|
    {
      var offset := 0;
      while offset < |GROUPS|
        invariant offset <= |GROUPS| && cursor == old(cursor)
        invariant RR.Next(DueGroups(snapshot, attempted, now), cursor, 0)
               == RR.Next(DueGroups(snapshot, attempted, now), cursor, offset)
      {
        var index := (cursor + offset) % |GROUPS|;
        var head := Find(snapshot, GROUPS[index]);
        if head.Some? && head.value.nextAttemptAt <= now && head.value.id !in attempted {
          cursor := (index + 1) % |GROUPS|;
          return head;
        }
        offset := offset + 1;
      }
      return None;
    }

    /** The events other code enqueues in one window of the drain loop. */
    method Admit(arrivals: seq<Event<B>>, ghost later: seq<Event<B>>)
      requires Valid() && Fresh(world, arrivals + later)
      modifies this
      ensures Valid() && world == Run(maxSize, old(world), Enqueues(arrivals))
      ensures OnlyArrivals(old(world), world)
      ensures Fresh(world, later)
      ensures Unattempted(world) + |later| <= Unattempted(old(world)) + |arrivals + later|
    {
      var k := 0;
      assert arrivals[0..] == arrivals;
      while k < |arrivals|
        invariant k <= |arrivals|
        invariant Valid() && Admitted(maxSize, old(world), world, arrivals, later, k)
      {
        AdmitsNext(maxSize, old(world), world, arrivals, later, k);
        var _ := Enqueue(arrivals[k]);
        k := k + 1;
      }
      assert arrivals[k..] == [] && [] + later == later;
    }

    /** The end of one iteration: the answer's effect on storage. */
    method Settle(e: Event<B>, outcome: Outcome)
      requires Valid() && world.phase == Answered(e, outcome)
      modifies this
      ensures Valid() && world == Move(maxSize, old(world), Commit)
    {
      MoveReaches(maxSize, world, Commit);
      world := Move(maxSize, world, Commit);
      var k := IndexOf(events, e.id);
      if k < |events| {
        var candidate := events[k];
        match outcome {
          case Acked =>
            stats := Increment(stats, candidate, Acknowledged);
            events := Without(events, e.id);
          case Refused =>
            stats := Increment(stats, candidate, Dropped);
            stats := Increment(stats, candidate, Rejected);
            events := Without(events, e.id);
          case RetryAt(at) =>
            events := events[k := candidate.(attempts := candidate.attempts + 1, nextAttemptAt := at)];
            stats := Increment(stats, candidate, Retries);
        }
      }
    }

    /** A decision on a loaded snapshot: the head to deliver, or the alarm to request. */
    method Choose(snapshot: seq<Event<B>>, attempted: set<nat>, now: int)
      returns (chosen: Option<Event<B>>, alarm: Option<int>)
      requires Valid() && world.phase == Loaded(snapshot) && world.attempted == attempted
      modifies this
      ensures Valid() && world == Move(maxSize, old(world), Decide(now))
      ensures match world.phase
              case Idle => chosen == None && alarm == None && snapshot == []
              case InFlight(e) => chosen == Some(e) && snapshot != []
              case Scheduling(t) => chosen == None && alarm == Some(t) && snapshot != []
              case _ => false
    {
      MoveReaches(maxSize, world, Decide(now));
      DecisionShape(maxSize, world, now);
      world := Move(maxSize, world, Decide(now));
      if |snapshot| == 0 {
        return None, None;
      }
      chosen := SelectNext(snapshot, attempted, now);
      if chosen == None {
        var times := HeadTimes(snapshot, 0);
        alarm := Some(if times == [] then now else Max(now, Least(times)));
      } else {
        alarm := None;
      }
    }

    /** A step of the loop that touches neither storage nor cursor. */
    ghost method Mark(a: Step<B>)
      requires Valid() && (a.StartDrain? || a.Load? || a.Answer? || a.Scheduled?)
      modifies this`world
      ensures Valid() && world == Move(maxSize, old(world), a)
    {
      MoveReaches(maxSize, world, a);
      world := Move(maxSize, world, a);
    }

    /** The windows up to one decision. */
    method LoadSnapshot(t: Turn<B>, ghost later: seq<Event<B>>)
      returns (snapshot: seq<Event<B>>, ghost steps: seq<Step<B>>)
      requires Valid() && world.phase == Loading
      requires Fresh(world, t.beforeLoad + (t.afterLoad + later))
      modifies this
      ensures Valid() && world == Run(maxSize, old(world), steps)
      ensures world.phase == Loaded(snapshot) && snapshot <= world.events
      ensures world.attempted == old(world).attempted && Fresh(world, later)
      ensures world.hist.drainFrom == old(world).hist.drainFrom
      ensures world.hist.alarms == old(world).hist.alarms && SameFates(old(world), world)
      ensures world.hist.delivered == old(world).hist.delivered && old(world).events <= world.events
      ensures Unattempted(world) + |later|
              <= Unattempted(old(world)) + |t.beforeLoad + (t.afterLoad + later)|
    {
      Admit(t.beforeLoad, t.afterLoad + later);
      steps := Enqueues(t.beforeLoad);
      snapshot := events;
      RunOne(maxSize, old(world), steps, world, Load);
      Mark(Load);
      steps := steps + [Load];
      Admit(t.afterLoad, later);
      RunConcat(maxSize, old(world), steps, Enqueues(t.afterLoad));
      steps := steps + Enqueues(t.afterLoad);
    }

    /** The windows up to and including one decision. */
    method LoadAndChoose(t: Turn<B>, attempted: set<nat>, ghost later: seq<Event<B>>)
      returns (chosen: Option<Event<B>>, alarm: Option<int>, ghost snapshot: seq<Event<B>>, ghost steps: seq<Step<B>>)
      requires Valid() && world.phase == Loading && world.attempted == attempted
      requires Fresh(world, t.beforeLoad + (t.afterLoad + later))
      modifies this
      ensures Valid() && world == Run(maxSize, old(world), steps)
      ensures Fresh(world, later) && snapshot <= world.events
      ensures world.hist.drainFrom == old(world).hist.drainFrom
      ensures world.hist.alarms == old(world).hist.alarms && SameFates(old(world), world)
      ensures old(world).events <= world.events
      ensures world.hist.delivered == old(world).hist.delivered + (if chosen.Some? then [chosen.value] else [])
      ensures chosen == None ==>
                && MayStop(snapshot, attempted, t.decideAt, alarm) && world.attempted == attempted
                && world.phase == (if alarm.Some? then Scheduling(alarm.value) else Idle)
      ensures chosen.Some? ==>
                && world.phase == InFlight(chosen.value)
                && world.attempted == attempted + {chosen.value.id}
                && Unattempted(world) + |later|
                   < Unattempted(old(world)) + |t.beforeLoad + (t.afterLoad + later)|
    {
      var loaded;
      loaded, steps := LoadSnapshot(t, later);
      snapshot := loaded;
      DecisionCases(maxSize, world, t.decideAt);
      RunOne(maxSize, old(world), steps, world, Decide(t.decideAt));
      chosen, alarm := Choose(loaded, attempted, t.decideAt);
      steps := steps + [Decide(t.decideAt)];
    }

    /** The answer to a delivery and the window before its commit. */
    method AnswerAndSettle(t: Turn<B>, e: Event<B>, ghost later: seq<Event<B>>)
      returns (ghost steps: seq<Step<B>>)
      requires Valid() && world.phase == InFlight(e)
      requires Fresh(world, t.beforeCommit + later)
      modifies this
      ensures Valid() && world == Run(maxSize, old(world), steps)
      ensures world.phase == Loading && world.attempted == old(world).attempted && Fresh(world, later)
      ensures world.hist.drainFrom == old(world).hist.drainFrom
      ensures world.hist.alarms == old(world).hist.alarms
      ensures world.hist.delivered == old(world).hist.delivered
      ensures Joins(old(world), world, e, t.delivery)
      ensures InPlace(old(world).events, world.events, e, t.delivery, t.answeredAt)
      ensures Unattempted(world) + |later| <= Unattempted(old(world)) + |t.beforeCommit + later|
    {
      var outcome := OutcomeOf(e, t.delivery, t.answeredAt);
      RunOne(maxSize, old(world), [], old(world), Answer(outcome));
      Mark(Answer(outcome));
      steps := [] + [Answer(outcome)];
      Admit(t.beforeCommit, later);
      RunConcat(maxSize, old(world), steps, Enqueues(t.beforeCommit));
      steps := steps + Enqueues(t.beforeCommit);
      RunOne(maxSize, old(world), steps, world, Commit);
      SettlingAttemptsNone(maxSize, world);
      SettlingShows(maxSize, old(world), world, e, t.delivery, t.answeredAt);
      Settle(e, outcome);
      steps := steps + [Commit];
    }

    /** A delivery, with what other code enqueues while it is out. */
    method Deliver(t: Turn<B>, e: Event<B>, ghost later: seq<Event<B>>)
      returns (ghost steps: seq<Step<B>>)
      requires Valid() && world.phase == InFlight(e)
      requires Fresh(world, t.inFlight + (t.beforeCommit + later))
      modifies this
      ensures Valid() && world == Run(maxSize, old(world), steps)
      ensures world.phase == Loading && world.attempted == old(world).attempted && Fresh(world, later)
      ensures world.hist.drainFrom == old(world).hist.drainFrom
      ensures world.hist.alarms == old(world).hist.alarms
      ensures world.hist.delivered == old(world).hist.delivered
      ensures Joins(old(world), world, e, t.delivery)
      ensures InPlace(old(world).events, world.events, e, t.delivery, t.answeredAt)
      ensures Unattempted(world) + |later|
              <= Unattempted(old(world)) + |t.inFlight + (t.beforeCommit + later)|
    {
      Admit(t.inFlight, t.beforeCommit + later);
      ghost var mid := world;
      steps := AnswerAndSettle(t, e, later);
      SettlesAfter(maxSize, old(world), mid, world, e, t.delivery, t.answeredAt);
      RunConcat(maxSize, old(world), Enqueues(t.inFlight), steps);
      steps := Enqueues(t.inFlight) + steps;
    }

    /** One round of the loop: a decision, and the delivery and commit it leads to. */
    method Round(t: Turn<B>, attempted: set<nat>, ghost rest: seq<Event<B>>, ghost w: World<B>, ghost trace: seq<Step<B>>)
      returns (chosen: Option<Event<B>>, alarm: Option<int>, ghost last: seq<Event<B>>, ghost more: seq<Step<B>>)
      requires Valid() && world.phase == Loading && world.attempted == attempted
      requires Shaped(w) && world == Run(maxSize, w, trace)
      requires Fresh(world, t.beforeLoad + (t.afterLoad + (t.inFlight + (t.beforeCommit + rest))))
      modifies this
      ensures Valid() && world == Run(maxSize, w, more) && trace <= more
      ensures world.hist.drainFrom == old(world).hist.drainFrom && world.hist.alarms == old(world).hist.alarms
      ensures old(world).events <= world.events || chosen.Some?
      ensures chosen == None ==> SameFates(old(world), world) && world.hist.delivered == old(world).hist.delivered
      ensures chosen.Some? ==> Turned(old(world), world, chosen.value, t.delivery, t.answeredAt)
      ensures chosen == None ==>
                && MayStop(last, attempted, t.decideAt, alarm) && world.attempted == attempted
                && last <= world.events
                && world.phase == (if alarm.Some? then Scheduling(alarm.value) else Idle)
      ensures chosen.Some? ==>
                && world.phase == Loading && Fresh(world, rest)
                && world.attempted == attempted + {chosen.value.id}
                && Unattempted(world) + |rest|
                   < Unattempted(old(world)) + |t.beforeLoad + (t.afterLoad + (t.inFlight + (t.beforeCommit + rest)))|
    {
      ghost var steps;
      chosen, alarm, last, steps := LoadAndChoose(t, attempted, t.inFlight + (t.beforeCommit + rest));
      RunOn(maxSize, w, trace, steps);
      more := trace + steps;
      if chosen.Some? {
        ghost var mid := world;
        steps := Deliver(t, chosen.value, rest);
        InPlaceAnswers(mid.events, world.events, chosen.value, t.delivery, t.answeredAt);
        RunOn(maxSize, w, more, steps);
        more := more + steps;
      }
    }

    /** The alarm request, if there is one, and the end of the drain. */
    ghost method Conclude(alarm: Option<int>, w: World<B>, trace: seq<Step<B>>) returns (more: seq<Step<B>>)
      requires Valid() && world.phase == (if alarm.Some? then Scheduling(alarm.value) else Idle)
      requires Shaped(w) && world == Run(maxSize, w, trace)
      modifies this`world
      ensures Valid() && world == Run(maxSize, w, more) && trace <= more && world.phase == Idle
      ensures SameFates(old(world), world)
      ensures world.events == old(world).events && world.attempted == old(world).attempted
      ensures world.hist.drainFrom == old(world).hist.drainFrom && world.hist.delivered == old(world).hist.delivered
      ensures world.hist.alarms == old(world).hist.alarms + (if alarm.Some? then [alarm.value] else [])
    {
      more := trace;
      if alarm.Some? {
        RunOne(maxSize, w, trace, world, Scheduled);
        Mark(Scheduled);
        more := trace + [Scheduled];
      }
    }

    /** A whole drain, with whatever other code enqueues meanwhile. It terminates as long as
        the enqueues stop at some turn, delivers no event twice, and returns only when its
        last load was empty or no head of it was due and unattempted; in the second case it
        has asked for one alarm, at the later of now and the earliest head. Then every group
        head it loaded is due later than its last decision, or was put back by this drain.
        The j-th delivery met the j-th answer: exactly the acknowledged events were counted
        as acknowledged, exactly those refused for good as rejected, and each other one is
        still pending, with one attempt more and its next one after the listed delay. */
    method DrainLoop(turn: nat -> Turn<B>, ghost quietFrom: nat)
      returns (alarm: Option<int>, ghost trace: seq<Step<B>>, ghost last: seq<Event<B>>, ghost at: int)
      requires Valid() && world.phase == Idle
      requires forall k: nat :: k >= quietFrom ==> Quiet(turn(k))
      requires Fresh(world, Arrivals(turn, 0, quietFrom))
      modifies this
      ensures Valid() && world == Run(maxSize, old(world), trace) && world.phase == Idle
      ensures world.hist.drainFrom == |old(world).hist.delivered|
      ensures last <= world.events
      ensures MayStop(last, world.attempted, at, alarm)
      ensures world.hist.alarms
              == old(world).hist.alarms + (if alarm.Some? then [alarm.value] else [])
      ensures Done(old(world), world, turn, last, at)
    {
      var attempted: set<nat> := {};
      Mark(StartDrain);
      trace := [StartDrain];
      RunOne(maxSize, old(world), [], old(world), StartDrain);
      assert [] + [StartDrain] == trace;
      var k := 0;
      while true
        invariant Valid() && world.phase == Loading && world.attempted == attempted
        invariant world == Run(maxSize, old(world), trace) && [StartDrain] <= trace
        invariant world.hist.drainFrom == |old(world).hist.delivered|
        invariant world.hist.alarms == old(world).hist.alarms
        invariant Drained(old(world), world, turn, k)
        invariant Fresh(world, Arrivals(turn, k, quietFrom))
        decreases Unattempted(world) + |Arrivals(turn, k, quietFrom)|
      {
        var t := turn(k);
        ghost var rest := Arrivals(turn, k + 1, quietFrom);
        ArrivalsUnfold(turn, k, quietFrom);
        ghost var before := world;
        var chosen;
        chosen, alarm, last, trace := Round(t, attempted, rest, old(world), trace);
        at := t.decideAt;
        if chosen == None {
          trace := Conclude(alarm, old(world), trace);
          StoppedIsDone(maxSize, old(world), before, world, turn, k, trace, last, at, alarm);
          return;
        }
        attempted := attempted + {chosen.value.id};
        RoundDrains(maxSize, old(world), before, world, turn, k, chosen.value);
        k := k + 1;
      }
    }
  }
}

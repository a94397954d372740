/** The promises of the outbox, for every run of enqueues, drains, answers and crashes. */
module OutboxTheorems {
  import opened Wrappers
  import opened Instruments
  import opened OutboxModel
  import opened OutboxLists
  import opened OutboxLaws
  import RR = RoundRobin

  ghost function Reached<B>(maxSize: nat, steps: seq<Step<B>>): World<B> {
    Run(maxSize, Start<B>(), steps)
  }

  lemma ReachedIsGood<B>(maxSize: nat, steps: seq<Step<B>>)
    ensures Good(maxSize, Reached(maxSize, steps))
  {
    StartIsGood<B>(maxSize);
    RunKeepsGood(maxSize, Start<B>(), steps);
  }

  ghost predicate Reachable<B(!new)>(maxSize: nat, w: World<B>) {
    exists steps: seq<Step<B>> :: w == Reached(maxSize, steps)
  }

  lemma MoveStaysReachable<B(!new)>(maxSize: nat, w: World<B>, a: Step<B>)
    requires Reachable(maxSize, w)
    ensures Good(maxSize, w) && Reachable(maxSize, Move(maxSize, w, a))
  {
    var steps: seq<Step<B>> :| w == Reached(maxSize, steps);
    ReachedIsGood(maxSize, steps);
    RunConcat(maxSize, Start<B>(), steps, [a]);
    assert Run(maxSize, w, [a]) == Move(maxSize, w, a) by {
      assert [a][1..] == [];
    }
    assert Move(maxSize, w, a) == Reached(maxSize, steps + [a]);
  }

  lemma MoveReaches<B(!new)>(maxSize: nat, w: World<B>, a: Step<B>)
    requires Shaped(w) && Reachable(maxSize, w)
    ensures Reachable(maxSize, Move(maxSize, w, a))
  {
    MoveStaysReachable(maxSize, w, a);
  }

  // --------------------------------------------------------------------- FIFO

  /** Over any number of drains, concurrent enqueues and worker restarts the deliveries of a
      group read e1..e1 e2..e2 e3.. in accepted order: everything that left was delivered,
      and at most one further event, the next in line, was. */
  lemma DeliveriesAreStutteringFifo<B>(maxSize: nat, steps: seq<Step<B>>, g: Group)
    ensures var h := Reached(maxSize, steps).hist;
            && Distinct(GroupIds(g, h.accepted))
            && GroupIds(g, h.removed) <= Collapse(GroupIds(g, h.delivered)) <= GroupIds(g, h.accepted)
            && |Collapse(GroupIds(g, h.delivered))| <= |GroupIds(g, h.removed)| + 1
  {
    ReachedIsGood(maxSize, steps);
    var w := Reached(maxSize, steps);
    GroupIdsDistinct(g, w.hist.accepted);
    assert Fifo(w, g) && Stutters(w, g);
    FollowsIsPrefix(GroupIds(g, w.hist.delivered), GroupIds(g, w.hist.removed), GroupIds(g, w.events));
  }

  lemma FollowsIsPrefix(deliveries: seq<nat>, gone: seq<nat>, pending: seq<nat>)
    requires Follows(deliveries, gone, pending)
    ensures gone <= Collapse(deliveries) <= gone + pending
    ensures |Collapse(deliveries)| <= |gone| + 1
  {
  }

  function IdList<B>(s: seq<Event<B>>): seq<nat> {
    seq(|s|, k requires 0 <= k < |s| => s[k].id)
  }

  /** The list without these ids, in order. */
  function Minus(s: seq<nat>, gone: set<nat>): seq<nat> {
    if s == [] then []
    else Minus(s[..|s| - 1], gone) + (if s[|s| - 1] in gone then [] else [s[|s| - 1]])
  }

  ghost predicate Queued<B>(w: World<B>) {
    && IdList(w.events) == Minus(IdList(w.hist.accepted), Ids(w.hist.removed))
    && Ids(w.hist.removed) <= Ids(w.hist.produced)
  }

  lemma {:induction false} MinusOne(s: seq<nat>, gone: set<nat>, id: nat)
    ensures Minus(s, gone + {id}) == Drop(Minus(s, gone), id)
  {
    if s != [] {
      var kept := Minus(s[..|s| - 1], gone);
      MinusOne(s[..|s| - 1], gone, id);
      DropSnoc(kept, s[|s| - 1], id);
      assert kept + [] == kept && Drop(kept, id) + [] == Drop(kept, id);
    }
  }

  lemma {:induction false} IdListWithout<B>(s: seq<Event<B>>, id: nat)
    ensures IdList(Without(s, id)) == Drop(IdList(s), id)
  {
    if s != [] {
      var t, e := s[..|s| - 1], s[|s| - 1];
      IdListWithout(t, id);
      assert IdList(s) == IdList(t) + [e.id];
      DropSnoc(IdList(t), e.id, id);
      if e.id != id {
        assert IdList(Without(t, id) + [e]) == IdList(Without(t, id)) + [e.id];
      }
    }
  }

  lemma EnqueueKeepsQueued<B>(maxSize: nat, w: World<B>, e: Event<B>)
    requires Shaped(w) && Queued(w) && e.id !in Ids(w.hist.produced)
    ensures Queued(DoEnqueue(maxSize, w, e))
  {
    IdsSnoc(w.hist.produced, e);
    if Room(maxSize, w.events, e) {
      var all := IdList(w.hist.accepted);
      assert IdList(w.hist.accepted + [e]) == all + [e.id];
      assert IdList(w.events + [e]) == IdList(w.events) + [e.id];
      assert (all + [e.id])[..|all|] == all;
    }
  }

  lemma CommitKeepsQueued<B>(w: World<B>, e: Event<B>, o: Outcome)
    requires Shaped(w) && Fated(w) && Leads(w, e) && Queued(w)
    ensures Queued(DoCommit(w, e, o))
  {
    LeaderIsFound(w, e);
    assert e.id in Ids(w.events);
    if o.RetryAt? {
      assert IdList(DoCommit(w, e, o).events) == IdList(w.events);
    } else {
      IdListWithout(w.events, e.id);
      MinusOne(IdList(w.hist.accepted), Ids(w.hist.removed), e.id);
      IdsSnoc(w.hist.removed, e);
    }
  }

  lemma MoveKeepsQueued<B>(maxSize: nat, w: World<B>, a: Step<B>)
    requires Good(maxSize, w) && Queued(w)
    ensures Queued(Move(maxSize, w, a))
  {
    match a {
      case Enqueue(e) => if e.id !in Ids(w.hist.produced) { EnqueueKeepsQueued(maxSize, w, e); }
      case Commit => if w.phase.Answered? { CommitKeepsQueued(w, w.phase.event, w.phase.outcome); }
      case _ =>
    }
  }

  lemma {:induction false} RunKeepsQueued<B(!new)>(maxSize: nat, w: World<B>, steps: seq<Step<B>>)
    requires Reachable(maxSize, w) && Shaped(w) && Queued(w)
    ensures Queued(Run(maxSize, w, steps))
    decreases |steps|
  {
    if steps != [] {
      MoveStaysReachable(maxSize, w, steps[0]);
      MoveKeepsQueued(maxSize, w, steps[0]);
      RunKeepsQueued(maxSize, Move(maxSize, w, steps[0]), steps[1..]);
    }
  }

  /** In every run the stored queue is the accepted events in their order, across groups, but
      for those that left: a retry changes no place. */
  lemma QueueKeepsItsOrder<B(!new)>(maxSize: nat, steps: seq<Step<B>>)
    ensures var w := Reached(maxSize, steps);
            IdList(w.events) == Minus(IdList(w.hist.accepted), Ids(w.hist.removed))
  {
    assert Start<B>() == Reached(maxSize, []);
    RunKeepsQueued(maxSize, Start<B>(), steps);
  }

  /** The event out for delivery stays the head of its group until its own commit. */
  lemma InFlightStaysHead<B>(maxSize: nat, steps: seq<Step<B>>, e: Event<B>)
    requires var p := Reached(maxSize, steps).phase;
             p == InFlight(e) || (p.Answered? && p.event == e)
    ensures var w := Reached(maxSize, steps);
            && Find(w.events, GroupOf(e)) == Some(e)
            && GroupIds(GroupOf(e), w.events) != []
            && GroupIds(GroupOf(e), w.events)[0] == e.id
  {
    ReachedIsGood(maxSize, steps);
    FindIsHead(Reached(maxSize, steps).events, GroupOf(e));
  }

  /** One drain delivers no event twice. */
  lemma OncePerDrain<B>(maxSize: nat, steps: seq<Step<B>>)
    ensures var h := Reached(maxSize, steps).hist;
            h.drainFrom <= |h.delivered| && DistinctIds(h.delivered[h.drainFrom..])
  {
    ReachedIsGood(maxSize, steps);
  }

  // ------------------------------------------------------------- conservation

  /** produced = acknowledged + pending + dropped and rejected <= dropped, in total and for
      each instrument, in every durable state. */
  lemma Conservation<B>(maxSize: nat, steps: seq<Step<B>>)
    ensures var w := Reached(maxSize, steps);
            && w.stats.total.produced == w.stats.total.acknowledged + |w.events| + w.stats.total.dropped
            && w.stats.total.rejected <= w.stats.total.dropped
            && forall i: Instrument ::
                 var p := w.stats.byInstrument[i];
                 && p.produced == p.acknowledged + GroupDepth(w.events, Pair(i)) + p.dropped
                 && p.rejected <= p.dropped
  {
    ReachedIsGood(maxSize, steps);
    var w := Reached(maxSize, steps);
    forall g: Group
      ensures GroupBalance(w, g)
    {
      assert Fifo(w, g) && Balanced(w, g);
    }
    CountersBalance(w);
  }

  lemma CountersBalance<B>(w: World<B>)
    requires Shaped(w) && Counted(w) && forall g: Group :: GroupBalance(w, g)
    ensures w.stats.total.produced == w.stats.total.acknowledged + |w.events| + w.stats.total.dropped
    ensures w.stats.total.rejected <= w.stats.total.dropped
    ensures forall i: Instrument ::
              var p := w.stats.byInstrument[i];
              && p.produced == p.acknowledged + GroupDepth(w.events, Pair(i)) + p.dropped
              && p.rejected <= p.dropped
  {
    TotalBalance(w);
    forall i: Instrument
      ensures var p := w.stats.byInstrument[i];
              && p.produced == p.acknowledged + GroupDepth(w.events, Pair(i)) + p.dropped
              && p.rejected <= p.dropped
    {
      assert GroupBalance(w, Pair(i));
    }
  }

  ghost predicate GroupBalance<B>(w: World<B>, g: Group) {
    GroupDepth(w.hist.produced, g) == GroupDepth(w.hist.acked, g) + GroupDepth(w.events, g)
      + GroupDepth(w.hist.refused, g) + GroupDepth(w.hist.rejected, g)
  }

  lemma TotalBalance<B>(w: World<B>)
    requires forall g: Group :: GroupBalance(w, g)
    ensures |w.hist.produced| == |w.hist.acked| + |w.events| + |w.hist.refused| + |w.hist.rejected|
  {
    GroupDepthsSum(w.hist.produced);
    GroupDepthsSum(w.hist.refused);
    GroupDepthsSum(w.hist.acked);
    GroupDepthsSum(w.hist.rejected);
    GroupDepthsSum(w.events);
    assert GroupBalance(w, Pair(EURUSD)) && GroupBalance(w, Pair(GBPUSD)) && GroupBalance(w, Pair(USDJPY))
        && GroupBalance(w, Pair(AUDUSD)) && GroupBalance(w, Discovery);
  }

  /** Each total counter is the sum of the instruments' counters and the discovery share. */
  lemma TotalsAreSums<B>(maxSize: nat, steps: seq<Step<B>>, f: Field)
    ensures var w := Reached(maxSize, steps);
            var discovery := match f
              case Produced => GroupDepth(w.hist.produced, Discovery)
              case Acknowledged => GroupDepth(w.hist.acked, Discovery)
              case Retries => GroupDepth(w.hist.retried, Discovery)
              case Dropped => GroupDepth(w.hist.refused, Discovery) + GroupDepth(w.hist.rejected, Discovery)
              case Rejected => GroupDepth(w.hist.rejected, Discovery);
            Count(w.stats.total, f) == Count(w.stats.byInstrument[EURUSD], f)
              + Count(w.stats.byInstrument[GBPUSD], f) + Count(w.stats.byInstrument[USDJPY], f)
              + Count(w.stats.byInstrument[AUDUSD], f) + discovery
  {
    ReachedIsGood(maxSize, steps);
    var w := Reached(maxSize, steps);
    match f {
      case Produced => GroupDepthsSum(w.hist.produced);
      case Acknowledged => GroupDepthsSum(w.hist.acked);
      case Retries => GroupDepthsSum(w.hist.retried);
      case Dropped => GroupDepthsSum(w.hist.refused); GroupDepthsSum(w.hist.rejected);
      case Rejected => GroupDepthsSum(w.hist.rejected);
    }
  }

  /** Every produced event has exactly one fate: pending, acknowledged, rejected or refused. */
  lemma ExactlyOneFate<B>(maxSize: nat, steps: seq<Step<B>>, id: nat)
    ensures var w := Reached(maxSize, steps);
            && (id in Ids(w.hist.produced) <==>
                  id in Ids(w.events) || id in Ids(w.hist.acked)
                  || id in Ids(w.hist.rejected) || id in Ids(w.hist.refused))
            && (id in Ids(w.events) ==>
                  id !in Ids(w.hist.acked) && id !in Ids(w.hist.rejected) && id !in Ids(w.hist.refused))
            && (id in Ids(w.hist.acked) ==> id !in Ids(w.hist.rejected) && id !in Ids(w.hist.refused))
            && (id in Ids(w.hist.rejected) ==> id !in Ids(w.hist.refused))
  {
    ReachedIsGood(maxSize, steps);
  }

  // ----------------------------------------------------------------- capacity

  /** Each group stays within its reserved share, and all of them within the total. */
  lemma CapacityIsReserved<B>(maxSize: nat, steps: seq<Step<B>>, g: Group)
    ensures var w := Reached(maxSize, steps);
            |w.events| <= maxSize && GroupDepth(w.events, g) <= Max(1, maxSize / 5)
  {
    ReachedIsGood(maxSize, steps);
    var w := Reached(maxSize, steps);
    assert GroupDepth(w.events, g) <= GroupCapacity(maxSize);
  }

  /** In every reachable state, an event is refused only because its own group is full. */
  ghost predicate OwnGroupOnly<B(!new)>(maxSize: nat) {
    forall steps: seq<Step<B>>, e: Event<B> ::
      var w := Reached(maxSize, steps);
      !Room(maxSize, w.events, e) ==> GroupDepth(w.events, GroupOf(e)) >= GroupCapacity(maxSize)
  }

  lemma FullMeansOwnGroupFull<B>(maxSize: nat, steps: seq<Step<B>>, e: Event<B>)
    requires maxSize >= |GROUPS|
    requires !Room(maxSize, Reached(maxSize, steps).events, e)
    ensures GroupDepth(Reached(maxSize, steps).events, GroupOf(e)) >= GroupCapacity(maxSize)
  {
    ReachedIsGood(maxSize, steps);
    var w := Reached(maxSize, steps);
    GroupDepthsSum(w.events);
    forall g: Group
      ensures GroupDepth(w.events, g) <= maxSize / 5
    {
      assert GroupDepth(w.events, g) <= GroupCapacity(maxSize);
    }
    match GroupOf(e) {
      case Pair(EURUSD) =>
      case Pair(GBPUSD) =>
      case Pair(USDJPY) =>
      case Pair(AUDUSD) =>
      case Discovery =>
    }
  }

  /** Positions of the pending events of e's group: of the same pair, or of none like e. */
  function Alike<B>(s: seq<Event<B>>, e: Event<B>): set<nat> {
    set k | 0 <= k < |s| && s[k].instrument == e.instrument
  }

  lemma {:induction false} AlikeIsDepth<B>(s: seq<Event<B>>, e: Event<B>)
    ensures |Alike(s, e)| == GroupDepth(s, GroupOf(e))
  {
    if s == [] {
      assert Alike(s, e) == {};
    } else {
      var t, n := s[..|s| - 1], |s| - 1;
      AlikeIsDepth(t, e);
      assert Alike(s, e) == Alike(t, e) + (if s[n].instrument == e.instrument then {n} else {});
    }
  }

  /** Exactly when there is room: the queue is not full, and the event's group has none pending
      or fewer than a fifth of the places. */
  lemma RoomExactlyWhen<B>(maxSize: nat, s: seq<Event<B>>, e: Event<B>)
    ensures Room(maxSize, s, e) <==>
              |s| < maxSize && (Alike(s, e) == {} || |Alike(s, e)| < maxSize / 5)
  {
    AlikeIsDepth(s, e);
  }

  /** Every reserved place can be used: in every reachable state an event with a new id whose
      group has fewer than a fifth of the places pending is accepted, at the end. */
  lemma ReservedPlacesAreUsable<B>(maxSize: nat, steps: seq<Step<B>>, e: Event<B>)
    requires maxSize >= 5 && e.id !in Ids(Reached(maxSize, steps).hist.produced)
    requires |Alike(Reached(maxSize, steps).events, e)| < maxSize / 5
    ensures var w := Reached(maxSize, steps);
            var w1 := Move(maxSize, w, Enqueue(e));
            w1.events == w.events + [e] && w1.hist.accepted == w.hist.accepted + [e]
  {
    var w := Reached(maxSize, steps);
    RoomExactlyWhen(maxSize, w.events, e);
    AlikeIsDepth(w.events, e);
    if !Room(maxSize, w.events, e) {
      FullMeansOwnGroupFull(maxSize, steps, e);
    }
  }

  function Filler<B>(body: B, n: nat): Event<B>
    requires 1 <= n <= 4
  {
    Event(n, Some(SUPPORTED[n - 1]), body, 0, 0)
  }

  function Fill<B>(body: B, n: nat): seq<Step<B>>
    requires n <= 4
  {
    if n == 0 then [] else Fill(body, n - 1) + [Enqueue(Filler(body, n))]
  }

  ghost predicate FilledTo<B>(w: World<B>, n: nat) {
    && |w.events| == n
    && (forall id | id in Ids(w.hist.produced) :: id <= n)
    && (forall g: Group | GroupIndex(g) >= n :: GroupIds(g, w.events) == [])
  }

  lemma FillOne<B>(maxSize: nat, w: World<B>, body: B, n: nat)
    requires Shaped(w) && 1 <= n <= maxSize < 5 && n <= 4 && FilledTo(w, n - 1)
    ensures FilledTo(Move(maxSize, w, Enqueue(Filler(body, n))), n)
  {
    var e := Filler(body, n);
    assert GroupIndex(GroupOf(e)) == n - 1;
    assert GroupDepth(w.events, GroupOf(e)) == 0;
    IdsSnoc(w.hist.produced, e);
    forall g: Group | GroupIndex(g) >= n
      ensures GroupIds(g, w.events + [e]) == []
    {
      GroupIdsSnoc(g, w.events, e);
    }
  }

  /** An outbox of fewer than five places fills with other groups' events. */
  lemma {:induction false} FillReaches<B>(maxSize: nat, body: B, n: nat)
    requires n <= maxSize < 5
    ensures FilledTo(Reached(maxSize, Fill(body, n)), n)
  {
    if n > 0 {
      FillReaches(maxSize, body, n - 1);
      var a := Enqueue(Filler(body, n));
      var w := Reached(maxSize, Fill(body, n - 1));
      RunConcat(maxSize, Start<B>(), Fill(body, n - 1), [a]);
      assert Run(maxSize, w, [a]) == Move(maxSize, w, a) by {
        assert [a][1..] == [];
      }
      FillOne(maxSize, w, body, n);
    }
  }

  /** The global size check never fires alone exactly when there is a place per group. */
  lemma RefusalIsByOwnGroup<B(!new)>(maxSize: nat, body: B)
    ensures OwnGroupOnly<B>(maxSize) <==> maxSize >= |GROUPS|
  {
    if maxSize >= |GROUPS| {
      forall steps: seq<Step<B>>, e: Event<B> | !Room(maxSize, Reached(maxSize, steps).events, e)
        ensures GroupDepth(Reached(maxSize, steps).events, GroupOf(e)) >= GroupCapacity(maxSize)
      {
        FullMeansOwnGroupFull(maxSize, steps, e);
      }
    } else {
      FullOfOthers(maxSize, body);
    }
  }

  lemma FullOfOthers<B(!new)>(maxSize: nat, body: B)
    requires maxSize < |GROUPS|
    ensures !OwnGroupOnly<B>(maxSize)
  {
    FillReaches(maxSize, body, maxSize);
    var e := Event(9, if maxSize == 4 then None else Some(SUPPORTED[maxSize]), body, 0, 0);
    var w := Reached(maxSize, Fill(body, maxSize));
    assert GroupIndex(GroupOf(e)) == maxSize;
    assert GroupDepth(w.events, GroupOf(e)) == 0;
    assert !Room(maxSize, w.events, e);
  }

  // ----------------------------------------------------------- bounded bypass

  function View<B>(w: World<B>): seq<Event<B>> {
    if w.phase.Loaded? then w.phase.snapshot else w.events
  }

  /** A drain is running and this group's head is due at time t and was not attempted in it. */
  ghost predicate Waiting<B>(w: World<B>, g: Group, t: int) {
    && !w.phase.Idle? && !w.phase.Scheduling?
    && Find(View(w), g).Some?
    && Find(View(w), g).value.nextAttemptAt <= t
    && Find(View(w), g).value.id !in w.attempted
  }

  function Chosen<B>(w: World<B>, a: Step<B>): Option<nat>
    requires Shaped(w)
  {
    if a.Decide? && w.phase.Loaded? && w.phase.snapshot != []
    then SelectNext(w.phase.snapshot, w.attempted, a.now, w.cursor) else None
  }

  /** The groups a run serves, in order, as indices into GROUPS. */
  function Served<B>(maxSize: nat, w: World<B>, steps: seq<Step<B>>): seq<nat>
    requires Shaped(w)
    decreases |steps|
  {
    if steps == [] then []
    else
      var c := Chosen(w, steps[0]);
      (if c.Some? then [c.value] else []) + Served(maxSize, Move(maxSize, w, steps[0]), steps[1..])
  }

  ghost predicate Since<B>(steps: seq<Step<B>>, t: int) {
    forall k | 0 <= k < |steps| :: !steps[k].Crash? && (steps[k].Decide? ==> t <= steps[k].now)
  }

  lemma HeadsDiffer<B>(s: seq<Event<B>>, g: Group, e: Event<B>)
    requires DistinctIds(s) && Find(s, g).Some? && e in s && GroupOf(e) != g
    ensures Find(s, g).value.id != e.id
  {
    FindIsHead(s, g);
    var j :| 0 <= j < |s| && s[j] == Find(s, g).value;
    var k :| 0 <= k < |s| && s[k] == e;
  }

  lemma DueHeadIsSeen<B>(s: seq<Event<B>>, attempted: set<nat>, now: int, cursor: nat, g: Group)
    requires cursor < |GROUPS| && Due(s, attempted, now, g)
    ensures var r := SelectNext(s, attempted, now, cursor);
            r.Some? && RR.Distance(5, cursor, r.value) <= RR.Distance(5, cursor, GroupIndex(g))
  {
    RR.NextIsNearest(DueGroups(s, attempted, now), cursor, 0);
    GroupIndexInverse(g);
    assert DueGroups(s, attempted, now)[GroupIndex(g)];
  }

  lemma DecideKeepsWaiting<B>(maxSize: nat, w: World<B>, now: int, g: Group, t: int)
    requires Shaped(w) && Phased(w) && DistinctIds(w.events)
    requires w.phase.Loaded? && Waiting(w, g, t) && t <= now
    ensures var c := Chosen(w, Decide(now));
            && c.Some?
            && RR.Distance(5, w.cursor, c.value) <= RR.Distance(5, w.cursor, GroupIndex(g))
            && Move(maxSize, w, Decide(now)).cursor == (c.value + 1) % 5
            && (c.value != GroupIndex(g) ==> Waiting(Move(maxSize, w, Decide(now)), g, t))
  {
    var s := w.phase.snapshot;
    DueHeadIsSeen(s, w.attempted, now, w.cursor, g);
    var k := SelectNext(s, w.attempted, now, w.cursor).value;
    ChosenLeads(w, g);
    ChosenLeads(w, GROUPS[k]);
    if k != GroupIndex(g) {
      FindIsHead(w.events, GROUPS[k]);
      GroupIndexInverse(g);
      HeadsDiffer(w.events, g, Find(s, GROUPS[k]).value);
    }
  }

  lemma CommitKeepsOtherHead<B>(w: World<B>, e: Event<B>, o: Outcome, g: Group)
    requires Shaped(w) && DistinctIds(w.events) && Leads(w, e) && GroupOf(e) != g && Find(w.events, g).Some?
    ensures var w1 := DoCommit(w, e, o);
            w1.phase.Loading? && w1.attempted == w.attempted && Find(w1.events, g) == Find(w.events, g)
  {
    LeaderIsFound(w, e);
    HeadsDiffer(w.events, g, e);
    if o.RetryAt? {
      FindUpdate(w.events, IndexOf(w.events, e.id), Retry(e, o.time), g);
    } else {
      FindWithout(w.events, e.id, g);
    }
  }

  lemma CommitKeepsWaiting<B>(w: World<B>, g: Group, t: int)
    requires Shaped(w) && DistinctIds(w.events) && Phased(w) && w.phase.Answered? && Waiting(w, g, t)
    ensures Waiting(DoCommit(w, w.phase.event, w.phase.outcome), g, t)
  {
    assert GroupOf(w.phase.event) != g;
    CommitKeepsOtherHead(w, w.phase.event, w.phase.outcome, g);
  }

  lemma EnqueueKeepsWaiting<B>(maxSize: nat, w: World<B>, e: Event<B>, g: Group, t: int)
    requires Shaped(w) && Waiting(w, g, t)
    ensures Waiting(DoEnqueue(maxSize, w, e), g, t)
  {
    FindAppend(w.events, [e], g);
  }

  lemma OtherMoveKeepsWaiting<B>(maxSize: nat, w: World<B>, a: Step<B>, g: Group, t: int)
    requires Shaped(w) && DistinctIds(w.events) && Phased(w) && Waiting(w, g, t) && !a.Crash?
    requires a.Decide? ==> !w.phase.Loaded?
    ensures Move(maxSize, w, a).cursor == w.cursor && Waiting(Move(maxSize, w, a), g, t)
  {
    match a {
      case Enqueue(e) => EnqueueKeepsWaiting(maxSize, w, e, g, t);
      case Commit => if w.phase.Answered? { CommitKeepsWaiting(w, g, t); }
      case _ =>
    }
  }

  /** These groups lie in this order between the cursor and a group at distance `limit`. */
  ghost predicate OnTheWay(served: seq<nat>, cursor: nat, limit: nat)
    requires cursor < 5
  {
    && |served| <= limit
    && (forall k | 0 <= k < |served| :: served[k] < 5)
    && (forall k | 0 <= k < |served| :: RR.Distance(5, cursor, served[k]) < limit)
    && (forall j, k | 0 <= j < k < |served| ::
          RR.Distance(5, cursor, served[j]) < RR.Distance(5, cursor, served[k]))
  }

  lemma OneMoreOnTheWay(c: nat, rest: seq<nat>, cursor: nat, limit: nat)
    requires cursor < 5 && c < 5 && RR.Distance(5, cursor, c) < limit <= 4
    requires OnTheWay(rest, (c + 1) % 5, limit - RR.Distance(5, cursor, c) - 1)
    ensures OnTheWay([c] + rest, cursor, limit)
  {
    forall k | 0 <= k < |rest|
      ensures RR.Distance(5, cursor, rest[k])
              == RR.Distance(5, cursor, c) + 1 + RR.Distance(5, (c + 1) % 5, rest[k])
    {
      RR.DistancesChain(5, cursor, c, rest[k]);
    }
  }

  /** From `cursor` the scan takes c before g and goes on at `next`, closer to g by what it passed. */
  ghost predicate PassesOver(cursor: nat, c: nat, next: nat, g: nat) {
    && cursor < 5 && c < 5 && g < 5 && next == (c + 1) % 5 < 5
    && RR.Distance(5, cursor, c) < RR.Distance(5, cursor, g)
    && RR.Distance(5, next, g) == RR.Distance(5, cursor, g) - RR.Distance(5, cursor, c) - 1
  }

  lemma PassedIsOnTheWay(cursor: nat, c: nat, next: nat, g: nat, rest: seq<nat>)
    requires PassesOver(cursor, c, next, g) && OnTheWay(rest, next, RR.Distance(5, next, g))
    ensures OnTheWay([c] + rest, cursor, RR.Distance(5, cursor, g))
  {
    OneMoreOnTheWay(c, rest, cursor, RR.Distance(5, cursor, g));
  }

  lemma PassesNearer(cursor: nat, c: nat, g: nat)
    requires cursor < 5 && c < 5 && g < 5 && c != g && RR.Distance(5, cursor, c) <= RR.Distance(5, cursor, g)
    ensures PassesOver(cursor, c, (c + 1) % 5, g)
  {
    RR.ServingOthersComesCloser(5, cursor, c, g);
  }

  /** One move while the head waits: nothing is served, or a group nearer to the cursor is. */
  lemma MoveKeepsWaiting<B>(maxSize: nat, w: World<B>, a: Step<B>, g: Group, t: int)
    requires Good(maxSize, w) && Waiting(w, g, t) && !a.Crash? && (a.Decide? ==> t <= a.now)
    requires Chosen(w, a) != Some(GroupIndex(g))
    ensures Waiting(Move(maxSize, w, a), g, t)
    ensures Chosen(w, a) == None ==> Move(maxSize, w, a).cursor == w.cursor
    ensures Chosen(w, a).Some? ==> PassesOver(w.cursor, Chosen(w, a).value, Move(maxSize, w, a).cursor, GroupIndex(g))
  {
    if a.Decide? && w.phase.Loaded? {
      DecideKeepsWaiting(maxSize, w, a.now, g, t);
      PassesNearer(w.cursor, Chosen(w, a).value, GroupIndex(g));
    } else {
      OtherMoveKeepsWaiting(maxSize, w, a, g, t);
    }
  }

  lemma ServedUnfolds<B>(maxSize: nat, w: World<B>, steps: seq<Step<B>>, k: nat)
    requires Shaped(w) && steps != []
    ensures var c := Chosen(w, steps[0]);
            var rest := Served(maxSize, Move(maxSize, w, steps[0]), steps[1..]);
            && (c == None ==> Served(maxSize, w, steps) == rest)
            && (c.Some? ==> Served(maxSize, w, steps) == [c.value] + rest)
            && (k !in Served(maxSize, w, steps) ==> k !in rest && c != Some(k))
  {
    var c := Chosen(w, steps[0]);
    var rest := Served(maxSize, Move(maxSize, w, steps[0]), steps[1..]);
    if c.Some? {
      assert ([c.value] + rest)[0] == c.value;
      assert forall x | x in rest :: x in [c.value] + rest;
    } else {
      assert [] + rest == rest;
    }
  }

  lemma MoveKeepsReachableWaiting<B(!new)>(maxSize: nat, w: World<B>, a: Step<B>, g: Group, t: int)
    requires Reachable(maxSize, w) && Shaped(w) && Waiting(w, g, t)
    requires !a.Crash? && (a.Decide? ==> t <= a.now) && Chosen(w, a) != Some(GroupIndex(g))
    ensures Reachable(maxSize, Move(maxSize, w, a)) && Waiting(Move(maxSize, w, a), g, t)
    ensures Chosen(w, a) == None ==> Move(maxSize, w, a).cursor == w.cursor
    ensures Chosen(w, a).Some? ==> PassesOver(w.cursor, Chosen(w, a).value, Move(maxSize, w, a).cursor, GroupIndex(g))
  {
    MoveStaysReachable(maxSize, w, a);
    MoveKeepsWaiting(maxSize, w, a, g, t);
  }

  lemma SinceRest<B>(steps: seq<Step<B>>, t: int)
    requires steps != [] && Since(steps, t)
    ensures Since(steps[1..], t)
  {
  }

  /** Bounded bypass. While a due, unattempted head waits it stays due and unattempted and
      the drain goes on; the groups served meanwhile lie between the cursor and it, each
      further on than the one before. So there are at most four, all different, and the
      fifth selection at the latest serves the waiting group. */
  lemma {:induction false} BoundedBypass<B(!new)>(
      maxSize: nat, w: World<B>, steps: seq<Step<B>>, g: Group, t: int)
    requires Reachable(maxSize, w) && Shaped(w) && Waiting(w, g, t) && Since(steps, t)
    requires GroupIndex(g) !in Served(maxSize, w, steps)
    ensures Waiting(Run(maxSize, w, steps), g, t)
    ensures OnTheWay(Served(maxSize, w, steps), w.cursor, RR.Distance(5, w.cursor, GroupIndex(g)))
    decreases |steps|
  {
    if steps != [] {
      var c := Chosen(w, steps[0]);
      var w1, rest := Move(maxSize, w, steps[0]), steps[1..];
      ServedUnfolds(maxSize, w, steps, GroupIndex(g));
      MoveKeepsReachableWaiting(maxSize, w, steps[0], g, t);
      SinceRest(steps, t);
      BoundedBypass(maxSize, w1, rest, g, t);
      assert Run(maxSize, w, steps) == Run(maxSize, w1, rest);
      if c.Some? {
        PassedIsOnTheWay(w.cursor, c.value, w1.cursor, GroupIndex(g), Served(maxSize, w1, rest));
      }
    }
  }

  // ------------------------------------------------------------ when it stops

  lemma {:induction false} LeastIsLeast(s: seq<int>)
    requires s != []
    ensures Least(s) in s && forall k | 0 <= k < |s| :: Least(s) <= s[k]
  {
    if |s| > 1 {
      LeastIsLeast(s[1..]);
      assert forall k | 1 <= k < |s| :: s[k] == s[1..][k - 1];
    }
  }

  lemma {:induction false} HeadTimesAreHeads<B>(s: seq<Event<B>>, k: nat)
    requires k <= |GROUPS|
    ensures forall t :: t in HeadTimes(s, k) <==>
              exists j :: k <= j < |GROUPS| && Find(s, GROUPS[j]).Some? && Find(s, GROUPS[j]).value.nextAttemptAt == t
    decreases |GROUPS| - k
  {
    if k < |GROUPS| {
      HeadTimesAreHeads(s, k + 1);
    }
  }

  /** The later of now and the earliest head of any group. */
  ghost predicate AlarmFor<B>(s: seq<Event<B>>, now: int, when: int) {
    exists g: Group :: Find(s, g).Some? && when == Max(now, Find(s, g).value.nextAttemptAt)
      && forall h: Group :: Find(s, h).Some? ==>
           Find(s, g).value.nextAttemptAt <= Find(s, h).value.nextAttemptAt
  }

  /** A decision ends the drain in two cases only. The outbox was empty; or every group head
      is absent, attempted or not due, and then one alarm is asked for at the later of now
      and the earliest head. */
  lemma DrainEnds<B>(w: World<B>, now: int)
    requires Shaped(w) && w.phase.Loaded?
    ensures var s := w.phase.snapshot;
            var w1 := DoDecide(w, s, now);
            && (w1.phase.Idle? <==> s == [])
            && (w1.phase.Scheduling? <==>
                  s != [] && forall g: Group :: !Due(s, w.attempted, now, g))
            && (w1.phase.Scheduling? ==> AlarmFor(s, now, w1.phase.time))
  {
    var s := w.phase.snapshot;
    if s != [] {
      SelectsExactlyWhenDue(s, w.attempted, now, w.cursor);
      LeastHeadIsAlarm(s, now);
    }
  }

  lemma SelectsExactlyWhenDue<B>(s: seq<Event<B>>, attempted: set<nat>, now: int, cursor: nat)
    requires cursor < |GROUPS|
    ensures SelectNext(s, attempted, now, cursor) == None <==> forall g: Group :: !Due(s, attempted, now, g)
  {
    if g: Group :| Due(s, attempted, now, g) {
      DueHeadIsSeen(s, attempted, now, cursor, g);
    }
  }

  lemma LeastHeadIsAlarm<B>(s: seq<Event<B>>, now: int)
    requires s != []
    ensures HeadTimes(s, 0) != [] && AlarmFor(s, now, Max(now, Least(HeadTimes(s, 0))))
  {
    SomeHead(s);
    var least := Least(HeadTimes(s, 0));
    LeastIsLeast(HeadTimes(s, 0));
    var g := LeastIsSomeHead(s);
    forall h: Group | Find(s, h).Some?
      ensures least <= Find(s, h).value.nextAttemptAt
    {
      HeadIsTimed(s, h);
    }
  }

  lemma HeadIsTimed<B>(s: seq<Event<B>>, h: Group)
    requires Find(s, h).Some?
    ensures Find(s, h).value.nextAttemptAt in HeadTimes(s, 0)
  {
    HeadTimesAreHeads(s, 0);
    GroupIndexInverse(h);
    assert Find(s, GROUPS[GroupIndex(h)]).value.nextAttemptAt == Find(s, h).value.nextAttemptAt;
  }

  lemma SomeHead<B>(s: seq<Event<B>>)
    requires s != []
    ensures HeadTimes(s, 0) != []
  {
    HeadIsTimed(s, GroupOf(s[0]));
  }

  lemma LeastIsSomeHead<B>(s: seq<Event<B>>) returns (g: Group)
    requires HeadTimes(s, 0) != []
    ensures Find(s, g).Some? && Find(s, g).value.nextAttemptAt == Least(HeadTimes(s, 0))
  {
    LeastIsLeast(HeadTimes(s, 0));
    HeadTimesAreHeads(s, 0);
    var j :| 0 <= j < |GROUPS| && Find(s, GROUPS[j]).Some?
      && Find(s, GROUPS[j]).value.nextAttemptAt == Least(HeadTimes(s, 0));
    g := GROUPS[j];
  }

  // ------------------------------------------------- what a drain leaves behind

  /** The event whose answer is not settled yet. */
  function Unsettled<B>(w: World<B>): set<nat> {
    if w.phase.InFlight? || w.phase.Answered? then {w.phase.event.id} else {}
  }

  /** Whatever this drain attempted has left, is out, or was put back for a later attempt:
      `from` counts the retries when the drain began. */
  ghost predicate Cleared<B>(w: World<B>, from: nat) {
    && from <= |w.hist.retried| && w.attempted <= Ids(w.hist.produced)
    && w.attempted * Ids(w.events) <= Unsettled(w) + Ids(w.hist.retried[from..])
  }

  lemma EnqueueKeepsCleared<B>(maxSize: nat, w: World<B>, e: Event<B>, from: nat)
    requires Shaped(w) && Cleared(w, from) && e.id !in Ids(w.hist.produced)
    ensures Cleared(DoEnqueue(maxSize, w, e), from)
  {
    IdsSnoc(w.hist.produced, e);
    IdsSnoc(w.events, e);
  }

  /** A decision attempts the event it sends out and no other. */
  lemma DecideAttempts<B>(w: World<B>, now: int)
    requires Shaped(w) && w.phase.Loaded?
    ensures var w1 := DoDecide(w, w.phase.snapshot, now);
            && w1.events == w.events && w1.hist.produced == w.hist.produced && w1.hist.retried == w.hist.retried
            && w1.attempted == w.attempted + Unsettled(w1)
            && (w1.phase.InFlight? || Unsettled(w1) == {})
  {
  }

  lemma DecideKeepsCleared<B>(w: World<B>, w1: World<B>, from: nat)
    requires Cleared(w, from) && Unsettled(w) == {}
    requires w1.events == w.events && w1.hist.produced == w.hist.produced && w1.hist.retried == w.hist.retried
    requires w1.attempted == w.attempted + Unsettled(w1) && Unsettled(w1) <= Ids(w1.hist.produced)
    ensures Cleared(w1, from)
  {
  }

  lemma OutIsProduced<B>(w: World<B>)
    requires Phased(w) && Fated(w) && w.phase.InFlight?
    ensures w.phase.event.id in Ids(w.hist.produced)
  {
    LeaderIsFound(w, w.phase.event);
    assert w.phase.event.id in Ids(w.events);
  }

  lemma CommitKeepsCleared<B>(w: World<B>, e: Event<B>, o: Outcome, from: nat)
    requires Shaped(w) && DistinctIds(w.events) && Leads(w, e) && w.phase == Answered(e, o) && Cleared(w, from)
    ensures Cleared(DoCommit(w, e, o), from)
  {
    LeaderIsFound(w, e);
    var w1 := DoCommit(w, e, o);
    if o.RetryAt? {
      UpdateIds(w.events, IndexOf(w.events, e.id), Retry(e, o.time));
      assert (w.hist.retried + [e])[from..] == w.hist.retried[from..] + [e];
      IdsSnoc(w.hist.retried[from..], e);
    } else {
      WithoutMembers(w.events, e.id);
      assert w1.hist.retried == w.hist.retried && Ids(w1.events) == Ids(w.events) - {e.id};
      forall id | id in w1.attempted * Ids(w1.events)
        ensures id in Ids(w.hist.retried[from..])
      {
        assert id in w.attempted * Ids(w.events);
      }
    }
  }

  lemma MoveKeepsCleared<B(!new)>(maxSize: nat, w: World<B>, a: Step<B>, from: nat)
    requires Reachable(maxSize, w) && Shaped(w) && Cleared(w, from)
    ensures Reachable(maxSize, Move(maxSize, w, a)) && Cleared(Move(maxSize, w, a), from)
  {
    MoveStaysReachable(maxSize, w, a);
    match a {
      case Enqueue(e) => if e.id !in Ids(w.hist.produced) { EnqueueKeepsCleared(maxSize, w, e, from); }
      case Decide(now) =>
        if w.phase.Loaded? {
          var w1 := Move(maxSize, w, a);
          MoveStaysReachable(maxSize, w1, Load);
          DecideAttempts(w, now);
          if w1.phase.InFlight? { OutIsProduced(w1); }
          DecideKeepsCleared(w, w1, from);
        }
      case Commit => if w.phase.Answered? { CommitKeepsCleared(w, w.phase.event, w.phase.outcome, from); }
      case _ =>
    }
  }

  lemma {:induction false} RunKeepsCleared<B(!new)>(maxSize: nat, w: World<B>, steps: seq<Step<B>>, from: nat)
    requires Reachable(maxSize, w) && Shaped(w) && Cleared(w, from)
    ensures Cleared(Run(maxSize, w, steps), from)
    decreases |steps|
  {
    if steps != [] {
      MoveKeepsCleared(maxSize, w, steps[0], from);
      RunKeepsCleared(maxSize, Move(maxSize, w, steps[0]), steps[1..], from);
    }
  }

  /** From the start of a drain on, in every run: what was attempted and is still pending is
      out for delivery or was put back after that start. */
  lemma DrainClears<B(!new)>(maxSize: nat, w: World<B>, steps: seq<Step<B>>)
    requires Reachable(maxSize, w) && Shaped(w) && w.phase.Idle?
    requires [StartDrain] <= steps
    ensures Cleared(Run(maxSize, w, steps), |w.hist.retried|)
  {
    MoveStaysReachable(maxSize, w, StartDrain);
    RunKeepsCleared(maxSize, Move(maxSize, w, StartDrain), steps[1..], |w.hist.retried|);
  }

  /** A crash leaves a new worker on the same storage. */
  lemma CrashKeepsStorageOnly<B>(maxSize: nat, w: World<B>)
    requires Shaped(w)
    ensures var w1 := Move(maxSize, w, Crash);
            && w1.events == w.events && w1.stats == w.stats
            && w1.cursor == Start<B>().cursor && w1.attempted == Start<B>().attempted && w1.phase == Start<B>().phase
            && w1.hist == w.hist.(drainFrom := |w.hist.delivered|)
  {
  }

  // ------------------------------------------------------------------ backoff

  /** Retry delays double from half a second and are capped at thirty from the sixth on. */
  lemma BackoffIsCapped(attempts: nat)
    ensures 500 <= Backoff(attempts) <= 30_000
    ensures Backoff(attempts) <= Backoff(attempts + 1)
    ensures attempts < 5 ==> Backoff(attempts + 1) == 2 * Backoff(attempts)
    ensures Backoff(attempts) == 30_000 <==> attempts >= 6
  {
    assert PowerOfTwo(0) == 1 && PowerOfTwo(1) == 2 && PowerOfTwo(2) == 4 && PowerOfTwo(3) == 8;
    assert PowerOfTwo(4) == 16 && PowerOfTwo(5) == 32 && PowerOfTwo(6) == 64;
  }
}

/** What every run of the outbox keeps: FIFO per group, stuttering deliveries, one fate for
    each event, counters that count it, and reserved capacity. */
module OutboxLaws {
  import opened Wrappers
  import opened Instruments
  import opened OutboxModel
  import opened OutboxLists

  // ------------------------------------------------------------- invariants

  /** The accepted events of a group are those that left, in order, then those pending. */
  ghost predicate Fifo<B>(w: World<B>, g: Group) {
    GroupIds(g, w.hist.accepted) == GroupIds(g, w.hist.removed) + GroupIds(g, w.events)
  }

  /** Without repeats, a group's deliveries are the events that left and maybe the head. */
  ghost predicate Follows(deliveries: seq<nat>, gone: seq<nat>, pending: seq<nat>) {
    var c := Collapse(deliveries);
    c == gone || (pending != [] && c == gone + [pending[0]])
  }

  ghost predicate Stutters<B>(w: World<B>, g: Group) {
    Follows(GroupIds(g, w.hist.delivered), GroupIds(g, w.hist.removed), GroupIds(g, w.events))
  }

  /** The event out for delivery is the head of its group and was the last attempted there. */
  ghost predicate Leads<B>(w: World<B>, e: Event<B>) {
    && Find(w.events, GroupOf(e)) == Some(e)
    && e.id in w.attempted
    && Collapse(GroupIds(GroupOf(e), w.hist.delivered))
       == GroupIds(GroupOf(e), w.hist.removed) + [e.id]
  }

  ghost predicate Phased<B>(w: World<B>) {
    match w.phase
    case Loaded(s) => s <= w.events
    case InFlight(e) => Leads(w, e)
    case Answered(e, _) => Leads(w, e)
    case _ => true
  }

  /** Every produced event has exactly one of four fates. */
  ghost predicate Fated<B>(w: World<B>) {
    && DistinctIds(w.events)
    && DistinctIds(w.hist.accepted)
    && Ids(w.hist.accepted) <= Ids(w.hist.produced)
    && Ids(w.hist.produced)
       == Ids(w.events) + Ids(w.hist.acked) + Ids(w.hist.rejected) + Ids(w.hist.refused)
    && Ids(w.events) !! Ids(w.hist.acked) !! Ids(w.hist.rejected) !! Ids(w.hist.refused)
  }

  ghost predicate Balanced<B>(w: World<B>, g: Group) {
    && |GroupIds(g, w.hist.produced)| == |GroupIds(g, w.hist.accepted)| + |GroupIds(g, w.hist.refused)|
    && |GroupIds(g, w.hist.removed)| == |GroupIds(g, w.hist.acked)| + |GroupIds(g, w.hist.rejected)|
  }

  /** A counter holds the length of these two logs, in total and for each instrument. */
  ghost predicate Tally<B>(s: Stats, f: Field, a: seq<Event<B>>, b: seq<Event<B>>)
    requires Complete(s)
  {
    && Count(s.total, f) == |a| + |b|
    && forall i: Instrument ::
         Count(s.byInstrument[i], f) == |GroupIds(Pair(i), a)| + |GroupIds(Pair(i), b)|
  }

  ghost predicate Counted<B>(w: World<B>)
    requires Shaped(w)
  {
    && Tally(w.stats, Produced, w.hist.produced, [])
    && Tally(w.stats, Acknowledged, w.hist.acked, [])
    && Tally(w.stats, Retries, w.hist.retried, [])
    && Tally(w.stats, Dropped, w.hist.refused, w.hist.rejected)
    && Tally(w.stats, Rejected, w.hist.rejected, [])
  }

  ghost predicate Bounded<B>(maxSize: nat, w: World<B>) {
    && |w.events| <= maxSize
    && forall g: Group :: GroupDepth(w.events, g) <= GroupCapacity(maxSize)
  }

  ghost predicate AttemptedOnce<B>(w: World<B>) {
    && w.hist.drainFrom <= |w.hist.delivered|
    && DistinctIds(w.hist.delivered[w.hist.drainFrom..])
    && Ids(w.hist.delivered[w.hist.drainFrom..]) <= w.attempted
  }

  ghost predicate Good<B>(maxSize: nat, w: World<B>) {
    && Shaped(w)
    && (forall g: Group :: Fifo(w, g) && Stutters(w, g) && Balanced(w, g))
    && Phased(w)
    && Fated(w)
    && Counted(w)
    && Bounded(maxSize, w)
    && AttemptedOnce(w)
  }

  lemma StartIsGood<B>(maxSize: nat)
    ensures Good(maxSize, Start<B>())
  {
    var w := Start<B>();
    assert w.events == [] && Ids(w.events) == {};
    assert forall g: Group :: GroupIds<B>(g, []) == [];
  }

  // ------------------------------------------------------------------ enqueue

  lemma TallyIncrement<B>(s: Stats, e: Event<B>, f: Field, a: seq<Event<B>>, b: seq<Event<B>>)
    requires Complete(s) && Tally(s, f, a, b)
    ensures Tally(Increment(s, e, f), f, a + [e], b)
    ensures Tally(Increment(s, e, f), f, a, b + [e])
  {
    forall i: Instrument
      ensures Count(Increment(s, e, f).byInstrument[i], f) == |GroupIds(Pair(i), a + [e])| + |GroupIds(Pair(i), b)|
      ensures Count(Increment(s, e, f).byInstrument[i], f) == |GroupIds(Pair(i), a)| + |GroupIds(Pair(i), b + [e])|
    {
      GroupIdsSnoc(Pair(i), a, e);
      GroupIdsSnoc(Pair(i), b, e);
    }
  }

  lemma TallyOther<B>(s: Stats, e: Event<B>, f: Field, g: Field, a: seq<Event<B>>, b: seq<Event<B>>)
    requires Complete(s) && Tally(s, g, a, b) && f != g
    ensures Tally(Increment(s, e, f), g, a, b)
  {
  }

  lemma EnqueueKeepsCounts<B>(maxSize: nat, w: World<B>, e: Event<B>)
    requires Shaped(w) && Counted(w)
    ensures Counted(DoEnqueue(maxSize, w, e))
  {
    var w1 := w.(stats := Increment(w.stats, e, Produced), hist := w.hist.(produced := w.hist.produced + [e]));
    ProducedIsCounted(w, w1, e);
    if !Room(maxSize, w.events, e) {
      RefusedIsCounted(w1, DoEnqueue(maxSize, w, e), e);
    }
  }

  lemma ProducedIsCounted<B>(w: World<B>, w1: World<B>, e: Event<B>)
    requires Shaped(w) && Counted(w)
    requires w1.stats == Increment(w.stats, e, Produced)
    requires w1.hist == w.hist.(produced := w.hist.produced + [e]) && Shaped(w1)
    ensures Counted(w1)
  {
    TallyIncrement(w.stats, e, Produced, w.hist.produced, []);
    TallyOther(w.stats, e, Produced, Acknowledged, w.hist.acked, []);
    TallyOther(w.stats, e, Produced, Retries, w.hist.retried, []);
    TallyOther(w.stats, e, Produced, Dropped, w.hist.refused, w.hist.rejected);
    TallyOther(w.stats, e, Produced, Rejected, w.hist.rejected, []);
  }

  lemma RefusedIsCounted<B>(w: World<B>, w1: World<B>, e: Event<B>)
    requires Shaped(w) && Counted(w)
    requires w1.stats == Increment(w.stats, e, Dropped)
    requires w1.hist == w.hist.(refused := w.hist.refused + [e]) && Shaped(w1)
    ensures Counted(w1)
  {
    TallyIncrement(w.stats, e, Dropped, w.hist.refused, w.hist.rejected);
    TallyOther(w.stats, e, Dropped, Produced, w.hist.produced, []);
    TallyOther(w.stats, e, Dropped, Acknowledged, w.hist.acked, []);
    TallyOther(w.stats, e, Dropped, Retries, w.hist.retried, []);
    TallyOther(w.stats, e, Dropped, Rejected, w.hist.rejected, []);
  }

  lemma EnqueueKeepsQueue<B>(maxSize: nat, w: World<B>, e: Event<B>, g: Group)
    requires Shaped(w) && Fifo(w, g) && Stutters(w, g)
    ensures var w1 := DoEnqueue(maxSize, w, e); Fifo(w1, g) && Stutters(w1, g)
  {
    if Room(maxSize, w.events, e) {
      var more := if GroupOf(e) == g then [e.id] else [];
      var gone, pending := GroupIds(g, w.hist.removed), GroupIds(g, w.events);
      GroupIdsSnoc(g, w.events, e);
      GroupIdsSnoc(g, w.hist.accepted, e);
      FollowsGrows(GroupIds(g, w.hist.delivered), gone, pending, more);
      Appending(gone, pending, more);
    }
  }

  lemma Appending(gone: seq<nat>, pending: seq<nat>, more: seq<nat>)
    ensures gone + pending + more == gone + (pending + more)
  {
  }

  lemma FollowsGrows(deliveries: seq<nat>, gone: seq<nat>, pending: seq<nat>, more: seq<nat>)
    requires Follows(deliveries, gone, pending)
    ensures Follows(deliveries, gone, pending + more)
  {
    if pending != [] {
      assert (pending + more)[0] == pending[0];
    }
  }

  lemma EnqueueKeepsBalance<B>(maxSize: nat, w: World<B>, e: Event<B>, g: Group)
    requires Shaped(w) && Balanced(w, g)
    ensures Balanced(DoEnqueue(maxSize, w, e), g)
  {
    GroupIdsSnoc(g, w.hist.produced, e);
    GroupIdsSnoc(g, w.hist.accepted, e);
    GroupIdsSnoc(g, w.hist.refused, e);
  }

  lemma EnqueueKeepsFates<B>(maxSize: nat, w: World<B>, e: Event<B>)
    requires Shaped(w) && Fated(w) && e.id !in Ids(w.hist.produced)
    ensures Fated(DoEnqueue(maxSize, w, e))
  {
    IdsSnoc(w.hist.produced, e);
    IdsSnoc(w.hist.accepted, e);
    IdsSnoc(w.hist.refused, e);
    IdsSnoc(w.events, e);
    assert forall k | 0 <= k < |w.events| :: w.events[k].id in Ids(w.events);
    assert forall k | 0 <= k < |w.hist.accepted| :: w.hist.accepted[k].id in Ids(w.hist.accepted);
  }

  lemma EnqueueKeepsPhase<B>(maxSize: nat, w: World<B>, e: Event<B>)
    requires Shaped(w) && Phased(w)
    ensures Phased(DoEnqueue(maxSize, w, e))
  {
    if w.phase.InFlight? || w.phase.Answered? {
      FindAppend(w.events, [e], GroupOf(w.phase.event));
    }
  }

  lemma EnqueueKeepsBounds<B>(maxSize: nat, w: World<B>, e: Event<B>)
    requires Shaped(w) && Bounded(maxSize, w)
    ensures Bounded(maxSize, DoEnqueue(maxSize, w, e))
  {
    forall g: Group
      ensures GroupDepth(DoEnqueue(maxSize, w, e).events, g) <= GroupCapacity(maxSize)
    {
      GroupIdsSnoc(g, w.events, e);
      assert GroupDepth(w.events, g) <= GroupCapacity(maxSize);
    }
  }

  lemma EnqueueKeepsGood<B>(maxSize: nat, w: World<B>, e: Event<B>)
    requires Good(maxSize, w) && e.id !in Ids(w.hist.produced)
    ensures Good(maxSize, DoEnqueue(maxSize, w, e))
  {
    EnqueueKeepsGroups(maxSize, w, e);
    EnqueueKeepsCounts(maxSize, w, e);
    EnqueueKeepsFates(maxSize, w, e);
    EnqueueKeepsPhase(maxSize, w, e);
    EnqueueKeepsBounds(maxSize, w, e);
    EnqueueKeepsAttempts(maxSize, w, e);
    AllPartsMakeGood(maxSize, DoEnqueue(maxSize, w, e));
  }

  lemma EnqueueKeepsGroups<B>(maxSize: nat, w: World<B>, e: Event<B>)
    requires Shaped(w) && forall g: Group :: Fifo(w, g) && Stutters(w, g) && Balanced(w, g)
    ensures var w1 := DoEnqueue(maxSize, w, e);
            forall g: Group :: Fifo(w1, g) && Stutters(w1, g) && Balanced(w1, g)
  {
    var w1 := DoEnqueue(maxSize, w, e);
    forall g: Group
      ensures Fifo(w1, g) && Stutters(w1, g) && Balanced(w1, g)
    {
      EnqueueKeepsQueue(maxSize, w, e, g);
      EnqueueKeepsBalance(maxSize, w, e, g);
    }
  }

  lemma EnqueueKeepsAttempts<B>(maxSize: nat, w: World<B>, e: Event<B>)
    requires Shaped(w) && AttemptedOnce(w)
    ensures Shaped(DoEnqueue(maxSize, w, e)) && AttemptedOnce(DoEnqueue(maxSize, w, e))
  {
  }

  lemma AllPartsMakeGood<B>(maxSize: nat, w: World<B>)
    requires Shaped(w) && (forall g: Group :: Fifo(w, g) && Stutters(w, g) && Balanced(w, g))
    requires Phased(w) && Fated(w) && Counted(w) && Bounded(maxSize, w) && AttemptedOnce(w)
    ensures Good(maxSize, w)
  {
  }

  // ------------------------------------------------------------------- decide

  /** The chosen event is still the head of its group, whatever was enqueued since the load. */
  lemma ChosenLeads<B>(w: World<B>, g: Group)
    requires Phased(w) && w.phase.Loaded? && Find(w.phase.snapshot, g).Some?
    ensures Find(w.events, g) == Find(w.phase.snapshot, g)
    ensures GroupOf(Find(w.events, g).value) == g
  {
    var s := w.phase.snapshot;
    assert w.events == s + w.events[|s|..];
    FindAppend(s, w.events[|s|..], g);
    FindIsHead(w.events, g);
  }

  lemma DeliveryStutters<B>(w: World<B>, e: Event<B>)
    requires DistinctIds(w.hist.accepted) && Find(w.events, GroupOf(e)) == Some(e)
    requires Fifo(w, GroupOf(e)) && Stutters(w, GroupOf(e))
    ensures Collapse(GroupIds(GroupOf(e), w.hist.delivered + [e]))
            == GroupIds(GroupOf(e), w.hist.removed) + [e.id]
  {
    var g := GroupOf(e);
    var gone := GroupIds(g, w.hist.removed);
    FindIsHead(w.events, g);
    GroupIdsSnoc(g, w.hist.delivered, e);
    CollapseSnoc(GroupIds(g, w.hist.delivered), e.id);
    GroupIdsDistinct(g, w.hist.accepted);
    assert GroupIds(g, w.hist.accepted)[|gone|] == e.id;
    if gone != [] {
      assert GroupIds(g, w.hist.accepted)[|gone| - 1] == gone[|gone| - 1];
    }
  }

  lemma DeliveryKeepsOnce<B>(w: World<B>, e: Event<B>)
    requires AttemptedOnce(w) && e.id !in w.attempted
    ensures var d := w.hist.delivered + [e];
            DistinctIds(d[w.hist.drainFrom..]) && Ids(d[w.hist.drainFrom..]) <= w.attempted + {e.id}
  {
    var recent := w.hist.delivered[w.hist.drainFrom..];
    assert (w.hist.delivered + [e])[w.hist.drainFrom..] == recent + [e];
    IdsSnoc(recent, e);
    assert forall k | 0 <= k < |recent| :: recent[k].id in Ids(recent);
  }

  lemma ServeKeepsGroup<B>(w: World<B>, w1: World<B>, e: Event<B>, h: Group)
    requires Fated(w) && Find(w.events, GroupOf(e)) == Some(e)
    requires Fifo(w, GroupOf(e)) && Stutters(w, GroupOf(e))
    requires Fifo(w, h) && Stutters(w, h) && Balanced(w, h)
    requires w1.events == w.events
    requires w1.hist == w.hist.(delivered := w.hist.delivered + [e])
    ensures Fifo(w1, h) && Stutters(w1, h) && Balanced(w1, h)
  {
    GroupIdsSnoc(h, w.hist.delivered, e);
    if h == GroupOf(e) {
      DeliveryStutters(w, e);
      FindIsHead(w.events, h);
    } else {
      assert GroupIds(h, w1.hist.delivered) == GroupIds(h, w.hist.delivered);
    }
  }

  lemma DecideKeepsGood<B>(maxSize: nat, w: World<B>, now: int)
    requires Good(maxSize, w) && w.phase.Loaded?
    ensures Good(maxSize, DoDecide(w, w.phase.snapshot, now))
  {
    var s := w.phase.snapshot;
    var w1 := DoDecide(w, s, now);
    if w1.phase.InFlight? {
      var e := w1.phase.event;
      ChosenLeads(w, GROUPS[SelectNext(s, w.attempted, now, w.cursor).value]);
      assert Fifo(w, GroupOf(e)) && Stutters(w, GroupOf(e));
      DeliveryStutters(w, e);
      DeliveryKeepsOnce(w, e);
      forall h: Group
        ensures Fifo(w1, h) && Stutters(w1, h) && Balanced(w1, h)
      {
        ServeKeepsGroup(w, w1, e, h);
      }
    } else {
      forall h: Group
        ensures Fifo(w1, h) && Stutters(w1, h) && Balanced(w1, h)
      {
        assert Fifo(w, h) && Stutters(w, h) && Balanced(w, h);
      }
    }
  }

  // ------------------------------------------------------------------- commit

  lemma LeaderIsFound<B>(w: World<B>, e: Event<B>)
    requires DistinctIds(w.events) && Leads(w, e)
    ensures IndexOf(w.events, e.id) < |w.events| && w.events[IndexOf(w.events, e.id)] == e
  {
    FindIsHead(w.events, GroupOf(e));
    IndexOfMember(w.events, e);
  }

  lemma CommitKeepsCounts<B>(w: World<B>, e: Event<B>, o: Outcome)
    requires Shaped(w) && Counted(w)
    ensures Counted(DoCommit(w, e, o))
  {
    var k := IndexOf(w.events, e.id);
    if k < |w.events| {
      var x := w.events[k];
      match o {
        case Acked =>
          TallyIncrement(w.stats, x, Acknowledged, w.hist.acked, []);
          TallyOther(w.stats, x, Acknowledged, Produced, w.hist.produced, []);
          TallyOther(w.stats, x, Acknowledged, Retries, w.hist.retried, []);
          TallyOther(w.stats, x, Acknowledged, Dropped, w.hist.refused, w.hist.rejected);
          TallyOther(w.stats, x, Acknowledged, Rejected, w.hist.rejected, []);
        case Refused => RejectKeepsCounts(w, x);
        case RetryAt(at) =>
          TallyIncrement(w.stats, x, Retries, w.hist.retried, []);
          TallyOther(w.stats, x, Retries, Produced, w.hist.produced, []);
          TallyOther(w.stats, x, Retries, Acknowledged, w.hist.acked, []);
          TallyOther(w.stats, x, Retries, Dropped, w.hist.refused, w.hist.rejected);
          TallyOther(w.stats, x, Retries, Rejected, w.hist.rejected, []);
      }
    }
  }

  lemma RejectKeepsCounts<B>(w: World<B>, x: Event<B>)
    requires Shaped(w) && Counted(w)
    ensures var s := Increment(Increment(w.stats, x, Dropped), x, Rejected);
            && Tally(s, Produced, w.hist.produced, [])
            && Tally(s, Acknowledged, w.hist.acked, [])
            && Tally(s, Retries, w.hist.retried, [])
            && Tally(s, Dropped, w.hist.refused, w.hist.rejected + [x])
            && Tally(s, Rejected, w.hist.rejected + [x], [])
  {
    var s1 := Increment(w.stats, x, Dropped);
    TallyOther(w.stats, x, Dropped, Produced, w.hist.produced, []);
    TallyOther(s1, x, Rejected, Produced, w.hist.produced, []);
    TallyOther(w.stats, x, Dropped, Acknowledged, w.hist.acked, []);
    TallyOther(s1, x, Rejected, Acknowledged, w.hist.acked, []);
    TallyOther(w.stats, x, Dropped, Retries, w.hist.retried, []);
    TallyOther(s1, x, Rejected, Retries, w.hist.retried, []);
    TallyIncrement(w.stats, x, Dropped, w.hist.refused, w.hist.rejected);
    TallyOther(s1, x, Rejected, Dropped, w.hist.refused, w.hist.rejected + [x]);
    TallyOther(w.stats, x, Dropped, Rejected, w.hist.rejected, []);
    TallyIncrement(s1, x, Rejected, w.hist.rejected, []);
  }

  /** Taking the leader out moves it from the front of its queue to the end of those gone. */
  lemma RemovalKeepsGroup<B>(w: World<B>, e: Event<B>, g: Group)
    requires DistinctIds(w.events) && Leads(w, e) && Fifo(w, g) && Stutters(w, g)
    ensures GroupIds(g, w.hist.accepted)
            == GroupIds(g, w.hist.removed + [e]) + GroupIds(g, Without(w.events, e.id))
    ensures Follows(GroupIds(g, w.hist.delivered), GroupIds(g, w.hist.removed + [e]),
                    GroupIds(g, Without(w.events, e.id)))
  {
    WithoutHead(g, w.events, e);
    FindIsHead(w.events, GroupOf(e));
    GroupIdsSnoc(g, w.hist.removed, e);
    var gone, pending := GroupIds(g, w.hist.removed), GroupIds(g, w.events);
    if GroupOf(e) == g {
      assert pending == [e.id] + pending[1..];
      assert gone + [e.id] + pending[1..] == gone + pending;
    } else {
      assert gone + [] == gone;
    }
  }

  lemma CommitKeepsGroup<B>(w: World<B>, e: Event<B>, o: Outcome, g: Group)
    requires Shaped(w) && DistinctIds(w.events) && Leads(w, e)
    requires Fifo(w, g) && Stutters(w, g) && Balanced(w, g)
    ensures var w1 := DoCommit(w, e, o); Fifo(w1, g) && Stutters(w1, g) && Balanced(w1, g)
  {
    LeaderIsFound(w, e);
    if o.RetryAt? {
      GroupIdsUpdate(g, w.events, IndexOf(w.events, e.id), Retry(e, o.time));
    } else {
      RemovalKeepsGroup(w, e, g);
      GroupIdsSnoc(g, w.hist.removed, e);
      GroupIdsSnoc(g, w.hist.acked, e);
      GroupIdsSnoc(g, w.hist.rejected, e);
    }
  }

  lemma CommitKeepsFates<B>(w: World<B>, e: Event<B>, o: Outcome)
    requires Shaped(w) && Fated(w) && Leads(w, e)
    ensures Fated(DoCommit(w, e, o))
  {
    LeaderIsFound(w, e);
    assert e.id in Ids(w.events);
    if o.RetryAt? {
      UpdateIds(w.events, IndexOf(w.events, e.id), Retry(e, o.time));
    } else {
      WithoutMembers(w.events, e.id);
      IdsSnoc(w.hist.acked, e);
      IdsSnoc(w.hist.rejected, e);
    }
  }

  lemma CommitKeepsBounds<B>(maxSize: nat, w: World<B>, e: Event<B>, o: Outcome)
    requires Shaped(w) && DistinctIds(w.events) && Leads(w, e) && Bounded(maxSize, w)
    ensures Bounded(maxSize, DoCommit(w, e, o))
  {
    LeaderIsFound(w, e);
    forall g: Group
      ensures GroupDepth(DoCommit(w, e, o).events, g) <= GroupCapacity(maxSize)
    {
      assert GroupDepth(w.events, g) <= GroupCapacity(maxSize);
      if o.RetryAt? {
        GroupIdsUpdate(g, w.events, IndexOf(w.events, e.id), Retry(e, o.time));
      } else {
        WithoutHead(g, w.events, e);
      }
    }
    WithoutMembers(w.events, e.id);
  }

  lemma CommitKeepsGroups<B>(maxSize: nat, w: World<B>)
    requires Good(maxSize, w) && w.phase.Answered?
    ensures var w1 := DoCommit(w, w.phase.event, w.phase.outcome);
            forall g: Group :: Fifo(w1, g) && Stutters(w1, g) && Balanced(w1, g)
  {
    var e, o := w.phase.event, w.phase.outcome;
    var w1 := DoCommit(w, e, o);
    forall g: Group
      ensures Fifo(w1, g) && Stutters(w1, g) && Balanced(w1, g)
    {
      assert Fifo(w, g) && Stutters(w, g) && Balanced(w, g);
      CommitKeepsGroup(w, e, o, g);
    }
  }

  lemma CommitKeepsAttempts<B>(w: World<B>)
    requires Shaped(w) && w.phase.Answered? && AttemptedOnce(w)
    ensures var w1 := DoCommit(w, w.phase.event, w.phase.outcome); Shaped(w1) && Phased(w1) && AttemptedOnce(w1)
  {
  }

  lemma CommitKeepsParts<B>(maxSize: nat, w: World<B>, e: Event<B>, o: Outcome)
    requires Shaped(w) && Leads(w, e) && Fated(w) && Counted(w) && Bounded(maxSize, w)
    ensures var w1 := DoCommit(w, e, o); Fated(w1) && Counted(w1) && Bounded(maxSize, w1)
  {
    CommitKeepsCounts(w, e, o);
    CommitKeepsFates(w, e, o);
    CommitKeepsBounds(maxSize, w, e, o);
  }

  lemma CommitKeepsGood<B>(maxSize: nat, w: World<B>)
    requires Good(maxSize, w) && w.phase.Answered?
    ensures Good(maxSize, DoCommit(w, w.phase.event, w.phase.outcome))
  {
    var e, o := w.phase.event, w.phase.outcome;
    GoodLeads(maxSize, w);
    CommitKeepsGroups(maxSize, w);
    CommitKeepsParts(maxSize, w, e, o);
    CommitKeepsAttempts(w);
    AllPartsMakeGood(maxSize, DoCommit(w, e, o));
  }

  lemma GoodLeads<B>(maxSize: nat, w: World<B>)
    requires Good(maxSize, w) && w.phase.Answered?
    ensures Leads(w, w.phase.event)
  {
  }

  // --------------------------------------------------------------------- runs

  /** Steps that touch neither queue nor counters. */
  lemma QuietMoveShows<B>(maxSize: nat, w: World<B>, a: Step<B>)
    requires Shaped(w) && !a.Enqueue? && !a.Decide? && !a.Commit?
    ensures var w1 := Move(maxSize, w, a);
            && w1.events == w.events && w1.stats == w.stats
            && w1.hist == w.hist.(alarms := w1.hist.alarms, drainFrom := w1.hist.drainFrom)
  {
  }

  lemma QuietMoveKeepsAttempts<B>(maxSize: nat, w: World<B>, a: Step<B>)
    requires Shaped(w) && Phased(w) && AttemptedOnce(w) && !a.Enqueue? && !a.Decide? && !a.Commit?
    ensures Phased(Move(maxSize, w, a)) && AttemptedOnce(Move(maxSize, w, a))
  {
    assert w.hist.delivered[|w.hist.delivered|..] == [];
    assert Ids<B>([]) == {};
  }

  lemma SameQueueKeepsGood<B>(maxSize: nat, w: World<B>, w1: World<B>)
    requires Good(maxSize, w) && Shaped(w1) && Phased(w1) && AttemptedOnce(w1)
    requires w1.events == w.events && w1.stats == w.stats
    requires w1.hist == w.hist.(alarms := w1.hist.alarms, drainFrom := w1.hist.drainFrom)
    ensures Good(maxSize, w1)
  {
    forall g: Group
      ensures Fifo(w1, g) && Stutters(w1, g) && Balanced(w1, g)
    {
      assert Fifo(w, g) && Stutters(w, g) && Balanced(w, g);
    }
  }

  lemma QuietMoveKeepsGood<B>(maxSize: nat, w: World<B>, a: Step<B>)
    requires Good(maxSize, w) && !a.Enqueue? && !a.Decide? && !a.Commit?
    ensures Good(maxSize, Move(maxSize, w, a))
  {
    QuietMoveShows(maxSize, w, a);
    QuietMoveKeepsAttempts(maxSize, w, a);
    SameQueueKeepsGood(maxSize, w, Move(maxSize, w, a));
  }

  lemma MoveKeepsGood<B>(maxSize: nat, w: World<B>, a: Step<B>)
    requires Good(maxSize, w)
    ensures Good(maxSize, Move(maxSize, w, a))
  {
    match a {
      case Enqueue(e) => if e.id !in Ids(w.hist.produced) { EnqueueKeepsGood(maxSize, w, e); }
      case Decide(now) => if w.phase.Loaded? { DecideKeepsGood(maxSize, w, now); }
      case Commit => if w.phase.Answered? { CommitKeepsGood(maxSize, w); }
      case _ => QuietMoveKeepsGood(maxSize, w, a);
    }
  }

  lemma {:induction false} RunKeepsGood<B>(maxSize: nat, w: World<B>, steps: seq<Step<B>>)
    requires Good(maxSize, w)
    ensures Good(maxSize, Run(maxSize, w, steps))
    decreases |steps|
  {
    if steps != [] {
      MoveKeepsGood(maxSize, w, steps[0]);
      RunKeepsGood(maxSize, Move(maxSize, w, steps[0]), steps[1..]);
    }
  }
}

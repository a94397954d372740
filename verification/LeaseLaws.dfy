/** The per-pair source lease is sticky: it changes only when its holder stopped being
    eligible at some refresh, for any documents, connections, clocks and restarts. */
module LeaseLaws {
  import opened Wrappers
  import opened Instruments
  import opened CollectorModel
  import opened CollectorLaws
  import A = AdapterModel

  /** One refresh keeps an eligible holder, whoever else is eligible, and otherwise fails
      over to the smallest eligible session. */
  lemma FailoverPicksSmallest(cfg: Settings, c: Collector, now: int, i: Instrument)
    requires i in c.active
    ensures var ids := EligibleIds(cfg, c.sessions, i, now);
            var held := Leases(cfg, c, now)[i];
            && (c.active[i].Some? && c.active[i].value in ids ==> held == c.active[i])
            && (!(c.active[i].Some? && c.active[i].value in ids) ==>
                  && (held == None <==> ids == [])
                  && (held.Some? ==> held.value in ids && forall x | x in ids :: held.value <= x))
  {
    LeastFacts(EligibleIds(cfg, c.sessions, i, now));
  }

  function HeldAfter(cfg: Settings, before: Option<nat>, entry: LogEntry, i: Instrument): Option<nat> {
    match entry
    case Normalized(j, session) => if i == j then Some(session) else before
    case Refreshed(sessions, now) =>
      if before.Some? && before.value in EligibleIds(cfg, sessions, i, now) then before else None
    case Standby(_) => before
  }

  lemma FreshMember(cfg: Settings, sessions: seq<Session>, now: int, s: Session)
    requires s in sessions && now - s.lastMessage <= cfg.expiry
    ensures s in Fresh(cfg, sessions, now)
  {
  }

  lemma AssignedMember(sessions: seq<Session>, s: Session)
    ensures s in Assigned(sessions, s)
  {
    assert Assigned(sessions, s)[IndexOf(sessions, s.id)] == s;
  }

  /** There is a place for this session, or another one is evicted for it. */
  ghost predicate KeepsPlace(s: Server, id: nat, at: int) {
    && |s.col.sessions| <= MAX_SESSIONS
    && (|s.col.sessions| == MAX_SESSIONS ==>
          exists x | x in s.col.sessions :: x.id == id || x.lastMessage <= at)
  }

  /** A refresh keeps the place: it may only empty the table further. */
  lemma RefreshKeepsPlace(cfg: Settings, s: Server, now: int, id: nat, at: int)
    requires Shaped(s) && DistinctSessions(s.col.sessions) && KeepsPlace(s, id, at)
    ensures var s1 := Refresh(cfg, s, now);
            Shaped(s1) && DistinctSessions(s1.col.sessions) && KeepsPlace(s1, id, at)
  {
    RefreshKeepsFresh(cfg, s, now, A.Key(0, 0, EURUSD));
    FreshIsShorter(cfg, s.col.sessions, now);
    RefreshShapes(cfg, s, now);
    var kept := Fresh(cfg, s.col.sessions, now);
    if |kept| == MAX_SESSIONS {
      FreshIsAll(cfg, s.col.sessions, now);
    }
  }

  lemma {:induction false} FreshIsAll(cfg: Settings, sessions: seq<Session>, now: int)
    requires |Fresh(cfg, sessions, now)| == |sessions|
    ensures Fresh(cfg, sessions, now) == sessions
  {
    if sessions != [] {
      FreshIsShorter(cfg, sessions[1..], now);
      FreshIsAll(cfg, sessions[1..], now);
    }
  }

  /** The table after a message was recorded and one session was evicted if need be. */
  function Recorded(c: Collector, u: Session): Collector {
    var placed := c.(sessions := Assigned(c.sessions, u));
    if |placed.sessions| > MAX_SESSIONS then EvictOldest(placed) else placed
  }

  lemma RecordedHolds(s: Server, u: Session)
    requires Shaped(s) && DistinctSessions(s.col.sessions) && KeepsPlace(s, u.id, u.lastMessage) && Complete(u.targets)
    ensures var c := Recorded(s.col, u);
            && Shaped(s.(col := c)) && DistinctSessions(c.sessions) && u in c.sessions
            && forall x | x in c.sessions && x.id == u.id :: x == u
  {
    var placed := Assigned(s.col.sessions, u);
    AssignedFacts(s.col.sessions, u);
    AssignedMember(s.col.sessions, u);
    AssignedHolds(s.col.sessions, u);
    var s2 := s.(col := s.col.(sessions := placed));
    AssignedIsShaped(s, u);
    if |placed| > MAX_SESSIONS {
      NewestIsLast(s.col.sessions, u);
      EvictedHolds(s2, u);
    }
  }

  lemma AssignedIsShaped(s: Server, u: Session)
    requires Shaped(s) && Complete(u.targets)
    ensures Shaped(s.(col := s.col.(sessions := Assigned(s.col.sessions, u))))
  {
  }

  lemma EvictedHolds(s: Server, u: Session)
    requires Shaped(s) && DistinctSessions(s.col.sessions) && u in s.col.sessions
    requires forall x | x in s.col.sessions && x.id == u.id :: x == u
    requires s.col.sessions[Oldest(s.col.sessions)].id != u.id
    ensures var c := EvictOldest(s.col);
            && Shaped(s.(col := c)) && DistinctSessions(c.sessions) && u in c.sessions
            && forall x | x in c.sessions && x.id == u.id :: x == u
  {
    var k := Oldest(s.col.sessions);
    EvictShapes(s);
    WithoutFacts(s.col.sessions, s.col.sessions[k].id);
    WithoutKeepsOthers(s.col.sessions, k, u);
  }

  /** A session that made the table grow comes last, so an older or equally old one is oldest. */
  lemma NewestIsLast(sessions: seq<Session>, u: Session)
    requires DistinctSessions(sessions) && |Assigned(sessions, u)| > |sessions|
    requires exists x | x in sessions :: x.id == u.id || x.lastMessage <= u.lastMessage
    ensures Assigned(sessions, u)[Oldest(Assigned(sessions, u))].id != u.id
  {
    var placed := Assigned(sessions, u);
    OldestIsOldest(placed);
    assert IndexOf(sessions, u.id) == |sessions| && placed == sessions + [u];
    var x :| x in sessions && (x.id == u.id || x.lastMessage <= u.lastMessage);
    var j :| 0 <= j < |sessions| && sessions[j] == x;
    assert placed[j] == x && placed[|sessions|] == u;
  }

  lemma WithoutKeepsOthers(sessions: seq<Session>, k: nat, u: Session)
    requires DistinctSessions(sessions) && k < |sessions| && u in sessions && sessions[k].id != u.id
    ensures u in Without(sessions, sessions[k].id)
  {
    var t := Without(sessions, sessions[k].id);
    WithoutFacts(sessions, sessions[k].id);
    var j :| 0 <= j < |sessions| && sessions[j] == u;
    assert u.id in SessionIds(t);
    var n :| 0 <= n < |t| && t[n].id == u.id;
    assert t[n] in sessions;
    var i :| 0 <= i < |sessions| && sessions[i] == t[n];
    assert i == j;
  }

  lemma TouchRecords(
      cfg: Settings, s: Server, id: nat, conn: nat, t: Clock, h: Option<Heartbeat>, observed: Option<Instrument>)
    requires Shaped(s) && DistinctSessions(s.col.sessions) && KeepsPlace(s, id, t.at)
    requires h.Some? ==> Complete(h.value.targets)
    ensures var s1 := Refresh(cfg, s, t.before);
            var u := Updated(s1.col.sessions, id, conn, t.at, h, observed);
            var c := Recorded(s1.col, u);
            && Shaped(s1.(col := c)) && DistinctSessions(c.sessions) && u in c.sessions
            && (forall x | x in c.sessions && x.id == id :: x == u)
            && Touch(cfg, s, id, conn, t, h, observed) == Refresh(cfg, s1.(col := c), t.after)
  {
    RefreshKeepsPlace(cfg, s, t.before, id, t.at);
    var s1 := Refresh(cfg, s, t.before);
    PlaceShapes(s1, id, conn, t.at, h, observed);
    var u := Updated(s1.col.sessions, id, conn, t.at, h, observed);
    AssignedMember(s1.col.sessions, u);
    RecordedHolds(s1, u);
  }

  /** A session that sends an observation is an eligible source of that pair when its message
      has been handled, however it reported itself before, so the pair has a lease. In a full
      table that is so when it is listed already or some session was not heard of later. */
  lemma ObserverBecomesEligible(cfg: Settings, s: Server, id: nat, conn: nat, t: Clock, i: Instrument)
    requires Shaped(s) && DistinctSessions(s.col.sessions) && KeepsPlace(s, id, t.at)
    requires t.after - t.at <= cfg.staleAfter && t.after - t.at <= cfg.expiry
    ensures var c := Touch(cfg, s, id, conn, t, None, Some(i)).col;
            && id in EligibleIds(cfg, c.sessions, i, t.after)
            && i in c.active && c.active[i].Some?
  {
    TouchRecords(cfg, s, id, conn, t, None, Some(i));
    var s1 := Refresh(cfg, s, t.before);
    var u := Updated(s1.col.sessions, id, conn, t.at, None, Some(i));
    RefreshMakesEligible(cfg, s1.(col := Recorded(s1.col, u)), t.after, u, i);
  }

  /** A recent heartbeat alone decides whether its session is an eligible source of a pair. */
  lemma HeartbeatDecides(cfg: Settings, s: Server, id: nat, conn: nat, h: Heartbeat, t: Clock, i: Instrument)
    requires Shaped(s) && DistinctSessions(s.col.sessions) && KeepsPlace(s, id, t.at) && Complete(h.targets)
    requires t.after - t.at <= cfg.staleAfter && t.after - t.at <= cfg.expiry
    ensures var c := Touch(cfg, s, id, conn, t, Some(h), None).col;
            && i in h.targets
            && (id in EligibleIds(cfg, c.sessions, i, t.after) <==>
                  h.ready && h.targets[i] != MISSING && h.targets[i] != AMBIGUOUS)
  {
    TouchRecords(cfg, s, id, conn, t, Some(h), None);
    var s1 := Refresh(cfg, s, t.before);
    var u := Updated(s1.col.sessions, id, conn, t.at, Some(h), None);
    RefreshDecides(cfg, s1.(col := Recorded(s1.col, u)), t.after, u, i);
  }

  lemma RefreshDecides(cfg: Settings, s: Server, now: int, u: Session, i: Instrument)
    requires DistinctSessions(s.col.sessions) && u in s.col.sessions && i in u.targets
    requires forall x | x in s.col.sessions && x.id == u.id :: x == u
    requires now - u.lastMessage <= cfg.staleAfter && now - u.lastMessage <= cfg.expiry
    ensures var c := Refresh(cfg, s, now).col;
            u.id in EligibleIds(cfg, c.sessions, i, now) <==>
              u.observerReady && u.targets[i] != MISSING && u.targets[i] != AMBIGUOUS
  {
    RefreshKeepsFresh(cfg, s, now, A.Key(0, 0, i));
    FreshMember(cfg, s.col.sessions, now, u);
    FreshIsShorter(cfg, s.col.sessions, now);
    EligibleExactlyWhen(cfg, Refresh(cfg, s, now).col.sessions, i, now, u.id);
  }

  lemma RefreshMakesEligible(cfg: Settings, s: Server, now: int, u: Session, i: Instrument)
    requires Shaped(s) && DistinctSessions(s.col.sessions) && u in s.col.sessions
    requires u.observerReady && i in u.targets && u.targets[i] == READY
    requires now - u.lastMessage <= cfg.staleAfter && now - u.lastMessage <= cfg.expiry
    ensures var c := Refresh(cfg, s, now).col;
            && u.id in EligibleIds(cfg, c.sessions, i, now)
            && i in c.active && c.active[i].Some?
  {
    RefreshKeepsFresh(cfg, s, now, A.Key(0, 0, i));
    FreshMember(cfg, s.col.sessions, now, u);
    EligibleExactlyWhen(cfg, Refresh(cfg, s, now).col.sessions, i, now, u.id);
    ExpireShapes(cfg, s.col, now, s.col.sessions);
    var before := Expire(cfg, s.col, now, s.col.sessions);
    assert i in s.col.active.Keys && i in before.active;
    FailoverPicksSmallest(cfg, before, now, i);
  }

  lemma {:induction false} FreshIsShorter(cfg: Settings, sessions: seq<Session>, now: int)
    ensures |Fresh(cfg, sessions, now)| <= |sessions|
    ensures forall s | s in Fresh(cfg, sessions, now) :: s in sessions
    ensures DistinctSessions(sessions) ==> DistinctSessions(Fresh(cfg, sessions, now))
  {
    if sessions != [] {
      var t, f := sessions[1..], Fresh(cfg, sessions[1..], now);
      FreshIsShorter(cfg, t, now);
      if DistinctSessions(sessions) {
        assert forall k | 0 <= k < |t| :: t[k] == sessions[k + 1];
        forall k | 0 <= k < |f| ensures f[k].id != sessions[0].id {
          assert f[k] in f && f[k] in t;
          var j :| 0 <= j < |t| && t[j] == f[k];
        }
      }
    }
  }

  /** Who normalized pair i last, as long as every refresh since found it eligible. */
  function Held(cfg: Settings, log: seq<LogEntry>, i: Instrument): Option<nat> {
    if log == [] then None
    else HeldAfter(cfg, Held(cfg, log[..|log| - 1], i), log[|log| - 1], i)
  }

  lemma HeldSnoc(cfg: Settings, log: seq<LogEntry>, entry: LogEntry, i: Instrument)
    ensures Held(cfg, log + [entry], i) == HeldAfter(cfg, Held(cfg, log, i), entry, i)
  {
    assert (log + [entry])[..|log|] == log;
  }

  /** No entry of the log took a lease from a holder that was still eligible. */
  ghost predicate NoTakeover(cfg: Settings, log: seq<LogEntry>) {
    forall k | 0 <= k < |log| && log[k].Normalized? ::
      var before := Held(cfg, log[..k], log[k].instrument);
      before == None || before == Some(log[k].session)
  }

  lemma NoTakeoverSnoc(cfg: Settings, log: seq<LogEntry>, entry: LogEntry)
    requires NoTakeover(cfg, log)
    requires entry.Normalized? ==>
               Held(cfg, log, entry.instrument) in {None, Some(entry.session)}
    ensures NoTakeover(cfg, log + [entry])
  {
    var l := log + [entry];
    assert l[..|log|] == log;
    assert forall k | 0 <= k < |log| :: l[..k] == log[..k] && l[k] == log[k];
  }

  /** Between refreshes the lease is what the log says. */
  ghost predicate Faithful(cfg: Settings, s: Server) {
    && NoTakeover(cfg, s.log)
    && DistinctSessions(s.col.sessions)
    && forall i: Instrument :: i in s.col.active
         && (Held(cfg, s.log, i).Some? ==> s.col.active[i] == Held(cfg, s.log, i))
  }

  /** Right after a restart only the log remembers a holder. */
  ghost predicate FaithfulOrNew(cfg: Settings, s: Server) {
    || Faithful(cfg, s)
    || (NoTakeover(cfg, s.log) && s.col == NOTHING)
  }

  /** Expiry releases a lease only together with its session. */
  lemma {:induction false} ExpireReleases(cfg: Settings, c: Collector, now: int, todo: seq<Session>, i: Instrument)
    requires DistinctSessions(c.sessions) && i in c.active
    ensures var c1 := Expire(cfg, c, now, todo);
            && DistinctSessions(c1.sessions) && i in c1.active
            && SessionIds(c1.sessions) <= SessionIds(c.sessions)
            && (c1.active[i] == c.active[i]
                || (c.active[i].Some? && c.active[i].value !in SessionIds(c1.sessions)))
    decreases |todo|
  {
    if todo != [] {
      if Expired(cfg, todo[0], now) {
        WithoutFacts(c.sessions, todo[0].id);
        ExpireReleases(cfg, Forget(c, todo[0]), now, todo[1..], i);
      } else {
        ExpireReleases(cfg, c, now, todo[1..], i);
      }
    }
  }

  lemma RefreshKeepsHolder(cfg: Settings, s: Server, now: int, i: Instrument)
    requires FaithfulOrNew(cfg, s) && i in s.col.active
    ensures var s1 := Refresh(cfg, s, now);
            i in s1.col.active && (Held(cfg, s1.log, i).Some? ==> s1.col.active[i] == Held(cfg, s1.log, i))
  {
    var c := Expire(cfg, s.col, now, s.col.sessions);
    ExpireReleases(cfg, s.col, now, s.col.sessions, i);
    HeldSnoc(cfg, s.log, Refreshed(c.sessions, now), i);
    EligibleFacts(cfg, c.sessions, i, now);
  }

  lemma RefreshIsFaithful(cfg: Settings, s: Server, now: int)
    requires FaithfulOrNew(cfg, s)
    ensures Faithful(cfg, Refresh(cfg, s, now))
  {
    var c := Expire(cfg, s.col, now, s.col.sessions);
    NoTakeoverSnoc(cfg, s.log, Refreshed(c.sessions, now));
    forall i: Instrument
      ensures var s1 := Refresh(cfg, s, now);
              i in s1.col.active && (Held(cfg, s1.log, i).Some? ==> s1.col.active[i] == Held(cfg, s1.log, i))
      ensures DistinctSessions(c.sessions)
    {
      RefreshKeepsHolder(cfg, s, now, i);
      ExpireReleases(cfg, s.col, now, s.col.sessions, i);
    }
    ExpireReleases(cfg, s.col, now, s.col.sessions, EURUSD);
  }

  lemma TouchIsFaithful(
      cfg: Settings, s: Server, id: nat, conn: nat, t: Clock, h: Option<Heartbeat>, observed: Option<Instrument>)
    requires FaithfulOrNew(cfg, s)
    ensures Faithful(cfg, Touch(cfg, s, id, conn, t, h, observed))
  {
    RefreshIsFaithful(cfg, s, t.before);
    var s1 := Refresh(cfg, s, t.before);
    var u := Updated(s1.col.sessions, id, conn, t.at, h, observed);
    AssignedFacts(s1.col.sessions, u);
    var c2 := s1.col.(sessions := Assigned(s1.col.sessions, u));
    assert Faithful(cfg, s1.(col := c2));
    if |c2.sessions| > MAX_SESSIONS {
      WithoutFacts(c2.sessions, c2.sessions[Oldest(c2.sessions)].id);
      assert Faithful(cfg, s1.(col := EvictOldest(c2)));
      RefreshIsFaithful(cfg, s1.(col := EvictOldest(c2)), t.after);
    } else {
      RefreshIsFaithful(cfg, s1.(col := c2), t.after);
    }
  }

  lemma LoggedIsFaithful(cfg: Settings, s: Server, s1: Server, entry: LogEntry)
    requires Faithful(cfg, s) && s1.log == s.log + [entry]
    requires s1.col.sessions == s.col.sessions && s1.col.active == s.col.active
    requires match entry
             case Normalized(i, session) => s.col.active[i] == Some(session)
             case Refreshed(_, _) => false
             case Standby(_) => true
    ensures Faithful(cfg, s1)
  {
    NoTakeoverSnoc(cfg, s.log, entry);
    forall i: Instrument
      ensures Held(cfg, s1.log, i).Some? ==> s1.col.active[i] == Held(cfg, s1.log, i)
    {
      HeldSnoc(cfg, s.log, entry, i);
    }
  }

  lemma IngestIsFaithful(cfg: Settings, s: Server, m: Message, t: Clock, fault: Fault)
    requires Shaped(s) && FaithfulOrNew(cfg, s)
    ensures Faithful(cfg, Ingest(cfg, s, m, t, fault).0)
  {
    TouchIsFaithful(cfg, s, m.session, m.conn, t, None, Some(m.instrument));
    RefreshIsFaithful(cfg, Touch(cfg, s, m.session, m.conn, t, None, Some(m.instrument)), t.received);
    var s1 := Greet(cfg, s, m, t);
    var s2 := Ingest(cfg, s, m, t, fault).0;
    if s1.col.active[m.instrument] != Some(m.session) {
      LoggedIsFaithful(cfg, s1, s2, Standby(m.eventId));
    } else if !HasRaw(s1.db, m.eventId) && !fault.NoLookup? && !fault.NotProcessed? {
      PipelineShows(cfg, s1.(log := s1.log + [Normalized(m.instrument, m.session)]),
                    EnvelopeOf(m, t.received, LastSequence(s1.db.ticks, m.doc, m.instrument)), m, fault);
      LoggedIsFaithful(cfg, s1, s2, Normalized(m.instrument, m.session));
    }
  }

  /** In every run, a session that reports itself not ready holds no lease any more. */
  lemma NotReadyHoldsNothing(
      cfg: Settings, steps: seq<Step>, id: nat, conn: nat, h: Heartbeat, t: Clock, i: Instrument)
    requires !h.ready
    ensures var s1 := Touch(cfg, Run(cfg, EMPTY, steps), id, conn, t, Some(h), None);
            i in s1.col.active && s1.col.active[i] != Some(id)
  {
    RunIsFaithful(cfg, EMPTY, steps);
    NotReadyReleases(cfg, Run(cfg, EMPTY, steps), id, conn, h, t, i);
  }

  lemma NotReadyReleases(cfg: Settings, s: Server, id: nat, conn: nat, h: Heartbeat, t: Clock, i: Instrument)
    requires FaithfulOrNew(cfg, s) && !h.ready
    ensures var s1 := Touch(cfg, s, id, conn, t, Some(h), None);
            i in s1.col.active && s1.col.active[i] != Some(id)
  {
    RefreshIsFaithful(cfg, s, t.before);
    var s1 := Refresh(cfg, s, t.before);
    var u := Updated(s1.col.sessions, id, conn, t.at, Some(h), None);
    AssignedFacts(s1.col.sessions, u);
    AssignedHolds(s1.col.sessions, u);
    var c2 := s1.col.(sessions := Assigned(s1.col.sessions, u));
    if |c2.sessions| > MAX_SESSIONS {
      WithoutFacts(c2.sessions, c2.sessions[Oldest(c2.sessions)].id);
    }
    var c3 := if |c2.sessions| > MAX_SESSIONS then EvictOldest(c2) else c2;
    assert forall x | x in c3.sessions && x.id == id :: !x.observerReady;
    NotReadyGetsNothing(cfg, s1.(col := c3), id, t.after, i);
  }

  lemma NotReadyGetsNothing(cfg: Settings, s: Server, id: nat, now: int, i: Instrument)
    requires DistinctSessions(s.col.sessions) && i in s.col.active
    requires forall x | x in s.col.sessions && x.id == id :: !x.observerReady
    ensures var c := Refresh(cfg, s, now).col; i in c.active && c.active[i] != Some(id)
  {
    var c := Expire(cfg, s.col, now, s.col.sessions);
    ExpireKeepsMembers(cfg, s.col, now, s.col.sessions);
    EligibleFacts(cfg, c.sessions, i, now);
    ExpireReleases(cfg, s.col, now, s.col.sessions, i);
    if Leases(cfg, c, now)[i].Some? {
      LeasesAreEligible(cfg, c, now, i);
    }
  }

  lemma AssignedHolds(sessions: seq<Session>, s: Session)
    requires DistinctSessions(sessions)
    ensures forall x | x in Assigned(sessions, s) && x.id == s.id :: x == s
  {
    var k := IndexOf(sessions, s.id);
    var t := Assigned(sessions, s);
    forall x | x in t && x.id == s.id ensures x == s {
      var j :| 0 <= j < |t| && t[j] == x;
      assert j == k;
    }
  }

  lemma {:induction false} ExpireKeepsMembers(cfg: Settings, c: Collector, now: int, todo: seq<Session>)
    requires DistinctSessions(c.sessions)
    ensures forall x | x in Expire(cfg, c, now, todo).sessions :: x in c.sessions
    decreases |todo|
  {
    if todo != [] {
      if Expired(cfg, todo[0], now) {
        WithoutFacts(c.sessions, todo[0].id);
        ExpireKeepsMembers(cfg, Forget(c, todo[0]), now, todo[1..]);
      } else {
        ExpireKeepsMembers(cfg, c, now, todo[1..]);
      }
    }
  }

  lemma BeatIsFaithful(cfg: Settings, s: Server, id: nat, conn: nat, h: Heartbeat, t: Clock)
    requires FaithfulOrNew(cfg, s)
    ensures Faithful(cfg, Beat(cfg, s, id, conn, h, t))
  {
    TouchIsFaithful(cfg, s, id, conn, t, Some(h), None);
    if !h.ready {
      var s1 := Touch(cfg, s, id, conn, t, Some(h), None);
      var s2 := s1.(col := s1.col.(adapter := A.Disconnect(s1.col.adapter, conn, id),
                                   active := Released(s1.col.active, id)));
      forall i: Instrument
        ensures i in s2.col.active && s2.col.active[i] == s1.col.active[i]
      {
        NotReadyReleases(cfg, s, id, conn, h, t, i);
      }
      assert Faithful(cfg, s2);
      RefreshIsFaithful(cfg, s2, t.last);
    }
  }

  lemma MoveIsFaithful(cfg: Settings, s: Server, a: Step)
    requires Shaped(s) && FaithfulOrNew(cfg, s)
    ensures FaithfulOrNew(cfg, Move(cfg, s, a))
  {
    match a {
      case IngestQuote(m, t, fault) => IngestIsFaithful(cfg, s, m, t, fault);
      case IngestHeartbeat(id, conn, h, t) => if Complete(h.targets) { BeatIsFaithful(cfg, s, id, conn, h, t); }
      case IngestDiscovery(eventId, id, conn, received, t, fault) => TouchIsFaithful(cfg, s, id, conn, t, None, None);
      case Poll(now) => RefreshIsFaithful(cfg, s, now);
      case Restart =>
    }
  }

  lemma {:induction false} RunIsFaithful(cfg: Settings, s: Server, steps: seq<Step>)
    requires Shaped(s) && FaithfulOrNew(cfg, s)
    ensures FaithfulOrNew(cfg, Run(cfg, s, steps))
    decreases |steps|
  {
    if steps != [] {
      MoveIsFaithful(cfg, s, steps[0]);
      MoveShapes(cfg, s, steps[0]);
      RunIsFaithful(cfg, Move(cfg, s, steps[0]), steps[1..]);
    }
  }

  /** If no refresh in between found x ineligible and pair i was not normalized again, x is
      still held. */
  lemma {:induction false} HeldUntilIneligible(cfg: Settings, log: seq<LogEntry>, i: Instrument, x: nat, a: nat, b: nat)
    requires a < b <= |log| && log[a] == Normalized(i, x)
    requires forall k | a < k < b && log[k].Normalized? :: log[k].instrument != i
    requires forall k | a < k < b && log[k].Refreshed? :: x in EligibleIds(cfg, log[k].sessions, i, log[k].now)
    ensures Held(cfg, log[..b], i) == Some(x)
    decreases b - a
  {
    assert log[..b] == log[..b - 1] + [log[b - 1]];
    HeldSnoc(cfg, log[..b - 1], log[b - 1], i);
    if b > a + 1 {
      HeldUntilIneligible(cfg, log, i, x, a, b - 1);
    }
  }

  /** Sticky lease, over whole runs. If two successive normalized observations of one pair
      come from different sessions, then at some refresh between them the first session was
      not eligible: gone, expired, evicted, stale, not ready or without a usable target. */
  lemma LeaseIsSticky(cfg: Settings, steps: seq<Step>, i: Instrument, x: nat, y: nat, a: nat, b: nat)
    requires var log := Run(cfg, EMPTY, steps).log;
             && a < b < |log| && log[a] == Normalized(i, x) && log[b] == Normalized(i, y) && x != y
             && forall k | a < k < b && log[k].Normalized? :: log[k].instrument != i
    ensures var log := Run(cfg, EMPTY, steps).log;
            exists k :: a < k < b && log[k].Refreshed?
              && x !in EligibleIds(cfg, log[k].sessions, i, log[k].now)
  {
    RunIsFaithful(cfg, EMPTY, steps);
    var log := Run(cfg, EMPTY, steps).log;
    if forall k | a < k < b && log[k].Refreshed? :: x in EligibleIds(cfg, log[k].sessions, i, log[k].now) {
      HeldUntilIneligible(cfg, log, i, x, a, b);
    }
  }
}

/** Session confinement and the sticky source lease, over every run of the collector. */
module CollectorLaws {
  import opened Wrappers
  import opened Instruments
  import opened CollectorModel
  import A = AdapterModel
  import AL = AdapterLaws

  // ------------------------------------------------------------ session table

  ghost predicate DistinctSessions(sessions: seq<Session>) {
    forall j, k | 0 <= j < k < |sessions| :: sessions[j].id != sessions[k].id
  }

  function SessionIds(sessions: seq<Session>): set<nat> {
    set k | 0 <= k < |sessions| :: sessions[k].id
  }

  lemma WithoutFacts(sessions: seq<Session>, id: nat)
    requires DistinctSessions(sessions)
    ensures DistinctSessions(Without(sessions, id))
    ensures SessionIds(Without(sessions, id)) == SessionIds(sessions) - {id}
    ensures forall s | s in Without(sessions, id) :: s in sessions
    ensures |Without(sessions, id)| <= |sessions|
    ensures id in SessionIds(sessions) ==> |Without(sessions, id)| == |sessions| - 1
  {
    var k := IndexOf(sessions, id);
    var t := Without(sessions, id);
    if k < |sessions| {
      assert forall j | 0 <= j < |t| :: t[j] == sessions[if j < k then j else j + 1];
      forall x ensures x in SessionIds(t) <==> x in SessionIds(sessions) && x != id {
        if x in SessionIds(sessions) && x != id {
          var j :| 0 <= j < |sessions| && sessions[j].id == x;
          assert t[if j < k then j else j - 1].id == x;
        }
        if x in SessionIds(t) {
          var j :| 0 <= j < |t| && t[j].id == x;
          assert sessions[if j < k then j else j + 1].id == x;
        }
      }
    }
  }

  lemma AssignedFacts(sessions: seq<Session>, s: Session)
    requires DistinctSessions(sessions)
    ensures DistinctSessions(Assigned(sessions, s))
    ensures SessionIds(Assigned(sessions, s)) == SessionIds(sessions) + {s.id}
    ensures forall x | x in Assigned(sessions, s) :: x == s || x in sessions
    ensures |Assigned(sessions, s)| <= |sessions| + 1
  {
    var k := IndexOf(sessions, s.id);
    var t := Assigned(sessions, s);
    if k < |sessions| {
      assert forall j | 0 <= j < |t| :: t[j].id == sessions[j].id;
    }
    forall x ensures x in SessionIds(t) <==> x in SessionIds(sessions) || x == s.id {
      if x in SessionIds(sessions) {
        var j :| 0 <= j < |sessions| && sessions[j].id == x;
        assert t[j].id == x;
      }
      if x == s.id {
        assert t[k].id == x;
      }
    }
  }

  lemma {:induction false} EligibleFacts(cfg: Settings, sessions: seq<Session>, i: Instrument, now: int)
    ensures forall x :: x in EligibleIds(cfg, sessions, i, now) <==>
              exists k :: 0 <= k < |sessions| && sessions[k].id == x && Eligible(cfg, sessions[k], i, now)
  {
    if sessions != [] {
      EligibleFacts(cfg, sessions[1..], i, now);
      forall x ensures x in EligibleIds(cfg, sessions, i, now) <==>
                exists k :: 0 <= k < |sessions| && sessions[k].id == x && Eligible(cfg, sessions[k], i, now)
      {
        if k :| 0 <= k < |sessions| && sessions[k].id == x && Eligible(cfg, sessions[k], i, now) {
          if k > 0 {
            assert sessions[1..][k - 1] == sessions[k];
          }
        }
        if x in EligibleIds(cfg, sessions[1..], i, now) {
          var k :| 0 <= k < |sessions| - 1 && sessions[1..][k].id == x && Eligible(cfg, sessions[1..][k], i, now);
          assert sessions[k + 1] == sessions[1..][k];
        }
      }
    }
  }

  lemma {:induction false} LeastFacts(ids: seq<nat>)
    ensures Least(ids) == None <==> ids == []
    ensures Least(ids).Some? ==> Least(ids).value in ids && forall x | x in ids :: Least(ids).value <= x
  {
    if ids != [] {
      LeastFacts(ids[1..]);
      assert forall x | x in ids :: x == ids[0] || x in ids[1..];
    }
  }

  // ------------------------------------------------- what a refresh decides

  /** The sessions heard of within the expiry time, in table order. */
  function Fresh(cfg: Settings, sessions: seq<Session>, now: int): seq<Session> {
    if sessions == [] then []
    else (if now - sessions[0].lastMessage <= cfg.expiry then [sessions[0]] else []) + Fresh(cfg, sessions[1..], now)
  }

  ghost predicate SilentKey(cfg: Settings, sessions: seq<Session>, now: int, k: A.Key) {
    exists s | s in sessions :: s.id == k.session && s.conn == k.conn && now - s.lastMessage > cfg.expiry
  }

  lemma WithoutMiddle(before: seq<Session>, s: Session, after: seq<Session>)
    requires DistinctSessions(before + [s] + after)
    ensures Without(before + [s] + after, s.id) == before + after
  {
    var all := before + [s] + after;
    var k := IndexOf(all, s.id);
    assert all[|before|] == s;
    assert k == |before|;
    assert all[..k] == before && all[k + 1..] == after;
  }

  lemma ForgetNext(c: Collector, done: seq<Session>, todo: seq<Session>)
    requires todo != [] && c.sessions == done + todo && DistinctSessions(c.sessions)
    ensures Forget(c, todo[0]).sessions == done + todo[1..] && DistinctSessions(done + todo[1..])
  {
    assert done + todo == done + [todo[0]] + todo[1..];
    WithoutMiddle(done, todo[0], todo[1..]);
    WithoutFacts(c.sessions, todo[0].id);
  }

  lemma {:induction false} ExpireKeepsFresh(cfg: Settings, c: Collector, now: int, done: seq<Session>, todo: seq<Session>)
    requires c.sessions == done + todo && DistinctSessions(c.sessions)
    ensures Expire(cfg, c, now, todo).sessions == done + Fresh(cfg, todo, now)
    decreases |todo|
  {
    if todo == [] {
      assert done + [] == done;
    } else {
      var rest := todo[1..];
      if Expired(cfg, todo[0], now) {
        ForgetNext(c, done, todo);
        ExpireKeepsFresh(cfg, Forget(c, todo[0]), now, done, rest);
        assert Fresh(cfg, todo, now) == Fresh(cfg, rest, now);
      } else {
        var more := done + [todo[0]];
        assert more + rest == c.sessions;
        ExpireKeepsFresh(cfg, c, now, more, rest);
        assert more + Fresh(cfg, rest, now) == done + Fresh(cfg, todo, now);
      }
    }
  }

  lemma SilentUnfolds(cfg: Settings, todo: seq<Session>, now: int, k: A.Key)
    requires todo != []
    ensures SilentKey(cfg, todo, now, k) <==>
              SilentKey(cfg, todo[1..], now, k)
              || (A.Of(k, todo[0].conn, todo[0].id) && now - todo[0].lastMessage > cfg.expiry)
  {
    assert forall s :: s in todo <==> s == todo[0] || s in todo[1..];
  }

  lemma {:induction false} ExpireKeepsQuotes(cfg: Settings, c: Collector, now: int, todo: seq<Session>, k: A.Key)
    ensures var c1 := Expire(cfg, c, now, todo);
            && (k in c1.adapter.quotes <==> k in c.adapter.quotes && !SilentKey(cfg, todo, now, k))
            && (k in c1.adapter.quotes ==> c1.adapter.quotes[k] == c.adapter.quotes[k])
    decreases |todo|
  {
    if todo != [] {
      SilentUnfolds(cfg, todo, now, k);
      ExpireKeepsQuotes(cfg, if Expired(cfg, todo[0], now) then Forget(c, todo[0]) else c, now, todo[1..], k);
    }
  }

  /** A refresh removes exactly the sessions silent for longer than the expiry time, keeps the
      others in order, and forgets exactly the removed sessions' quotes. */
  lemma RefreshKeepsFresh(cfg: Settings, s: Server, now: int, k: A.Key)
    requires DistinctSessions(s.col.sessions)
    ensures var c := Refresh(cfg, s, now).col;
            && c.sessions == Fresh(cfg, s.col.sessions, now)
            && (k in c.adapter.quotes <==> k in s.col.adapter.quotes && !SilentKey(cfg, s.col.sessions, now, k))
            && (k in c.adapter.quotes ==> c.adapter.quotes[k] == s.col.adapter.quotes[k])
  {
    ExpireKeepsFresh(cfg, s.col, now, [], s.col.sessions);
    ExpireKeepsQuotes(cfg, s.col, now, s.col.sessions, k);
    assert [] + s.col.sessions == s.col.sessions;
    assert [] + Fresh(cfg, s.col.sessions, now) == Fresh(cfg, s.col.sessions, now);
  }

  /** A session is eligible exactly when it was heard of recently, its observer is ready, and
      its target for the pair is neither missing nor ambiguous. */
  lemma EligibleExactlyWhen(cfg: Settings, sessions: seq<Session>, i: Instrument, now: int, id: nat)
    ensures id in EligibleIds(cfg, sessions, i, now) <==>
              exists s | s in sessions ::
                && s.id == id && now - s.lastMessage <= cfg.staleAfter && s.observerReady
                && i in s.targets && s.targets[i] != MISSING && s.targets[i] != AMBIGUOUS
  {
    EligibleFacts(cfg, sessions, i, now);
    if s :| s in sessions && s.id == id && Eligible(cfg, s, i, now) {
      var k :| 0 <= k < |sessions| && sessions[k] == s;
    }
  }

  lemma {:induction false} OldestIsOldest(sessions: seq<Session>)
    requires sessions != []
    ensures forall j | 0 <= j < |sessions| :: sessions[Oldest(sessions)].lastMessage <= sessions[j].lastMessage
    ensures forall j | 0 <= j < Oldest(sessions) :: sessions[Oldest(sessions)].lastMessage < sessions[j].lastMessage
  {
    if |sessions| > 1 {
      var t := sessions[1..];
      OldestIsOldest(t);
      assert forall j | 1 <= j < |sessions| :: sessions[j] == t[j - 1];
    }
  }

  /** An eviction removes the first of the longest silent sessions and exactly its quotes. */
  lemma EvictionTakesOldest(c: Collector, k: nat, key: A.Key)
    requires DistinctSessions(c.sessions) && k < |c.sessions|
    requires forall j | 0 <= j < |c.sessions| :: c.sessions[k].lastMessage <= c.sessions[j].lastMessage
    requires forall j | 0 <= j < k :: c.sessions[k].lastMessage < c.sessions[j].lastMessage
    ensures var c1 := EvictOldest(c);
            && c1.sessions == c.sessions[..k] + c.sessions[k + 1..]
            && c1.active == c.active
            && (key in c1.adapter.quotes <==>
                  key in c.adapter.quotes && !(key.session == c.sessions[k].id && key.conn == c.sessions[k].conn))
  {
    OldestIsOldest(c.sessions);
    var o := Oldest(c.sessions);
    assert o == k;
    WithoutMiddle(c.sessions[..k], c.sessions[k], c.sessions[k + 1..]);
    assert c.sessions[..k] + [c.sessions[k]] + c.sessions[k + 1..] == c.sessions;
  }

  // -------------------------------------------------------------- confinement

  /** Sessions are distinct and keep their document's connection, and everything the adapter
      remembers belongs to one of them. */
  ghost predicate Confined(connOf: nat -> nat, c: Collector) {
    && DistinctSessions(c.sessions)
    && (forall s | s in c.sessions :: s.conn == connOf(s.id))
    && (forall k | k in c.adapter.quotes :: k.session in SessionIds(c.sessions) && k.conn == connOf(k.session))
    && (forall x | x in c.adapter.seen ::
          x.key.session in SessionIds(c.sessions) && x.key.conn == connOf(x.key.session))
  }

  ghost predicate Leased(c: Collector) {
    forall i: Instrument :: i in c.active && (c.active[i].Some? ==> c.active[i].value in SessionIds(c.sessions))
  }

  /** Deleting a session together with its adapter state. */
  lemma RemovalConfines(connOf: nat -> nat, c: Collector, s: Session, c1: Collector)
    requires Confined(connOf, c) && s.conn == connOf(s.id)
    requires c1.sessions == Without(c.sessions, s.id) && c1.adapter == A.Disconnect(c.adapter, s.conn, s.id)
    ensures Confined(connOf, c1) && |c1.sessions| <= |c.sessions|
  {
    WithoutFacts(c.sessions, s.id);
    AL.OthersFacts(c.adapter.seen, s.conn, s.id);
  }

  lemma {:induction false} ExpireConfines(connOf: nat -> nat, cfg: Settings, c: Collector, now: int, todo: seq<Session>)
    requires Confined(connOf, c) && forall s | s in todo :: s.conn == connOf(s.id)
    ensures Confined(connOf, Expire(cfg, c, now, todo))
    ensures |Expire(cfg, c, now, todo).sessions| <= |c.sessions|
    ensures Expire(cfg, c, now, todo).active.Keys == c.active.Keys
    decreases |todo|
  {
    if todo != [] {
      var s := todo[0];
      if Expired(cfg, s, now) {
        RemovalConfines(connOf, c, s, Forget(c, s));
        ExpireConfines(connOf, cfg, Forget(c, s), now, todo[1..]);
      } else {
        ExpireConfines(connOf, cfg, c, now, todo[1..]);
      }
    }
  }

  lemma LeasesAreEligible(cfg: Settings, c: Collector, now: int, i: Instrument)
    requires i in c.active && Leases(cfg, c, now)[i].Some?
    ensures Leases(cfg, c, now)[i].value in EligibleIds(cfg, c.sessions, i, now)
  {
    LeastFacts(EligibleIds(cfg, c.sessions, i, now));
  }

  lemma RefreshConfines(connOf: nat -> nat, cfg: Settings, s: Server, now: int)
    requires Confined(connOf, s.col) && forall i: Instrument :: i in s.col.active
    ensures var s1 := Refresh(cfg, s, now);
            && Confined(connOf, s1.col) && Leased(s1.col)
            && |s1.col.sessions| <= |s.col.sessions| && s1.db == s.db
            && forall i: Instrument :: s1.col.active[i].Some? ==>
                 s1.col.active[i].value in EligibleIds(cfg, s1.col.sessions, i, now)
  {
    ExpireConfines(connOf, cfg, s.col, now, s.col.sessions);
    var c := Expire(cfg, s.col, now, s.col.sessions);
    var s1 := Refresh(cfg, s, now);
    forall i: Instrument
      ensures i in s1.col.active
      ensures s1.col.active[i].Some? ==>
                && s1.col.active[i].value in EligibleIds(cfg, c.sessions, i, now)
                && s1.col.active[i].value in SessionIds(c.sessions)
    {
      assert i in c.active;
      if s1.col.active[i].Some? {
        LeasesAreEligible(cfg, c, now, i);
        EligibleFacts(cfg, c.sessions, i, now);
      }
    }
  }

  lemma EvictConfines(connOf: nat -> nat, c: Collector)
    requires Confined(connOf, c) && c.sessions != []
    ensures Confined(connOf, EvictOldest(c)) && |EvictOldest(c).sessions| == |c.sessions| - 1
  {
    var s := c.sessions[Oldest(c.sessions)];
    assert s in c.sessions && s.id in SessionIds(c.sessions);
    WithoutFacts(c.sessions, s.id);
    RemovalConfines(connOf, c, s, EvictOldest(c));
  }

  lemma TouchConfines(
      connOf: nat -> nat, cfg: Settings, s: Server, id: nat, conn: nat, t: Clock,
      h: Option<Heartbeat>, observed: Option<Instrument>)
    requires Confined(connOf, s.col) && conn == connOf(id) && forall i: Instrument :: i in s.col.active
    requires |s.col.sessions| <= MAX_SESSIONS
    ensures var s1 := Touch(cfg, s, id, conn, t, h, observed);
            && Confined(connOf, s1.col) && Leased(s1.col)
            && |s1.col.sessions| <= MAX_SESSIONS && s1.db == s.db
            && forall i: Instrument :: s1.col.active[i].Some? ==>
                 s1.col.active[i].value in EligibleIds(cfg, s1.col.sessions, i, t.after)
  {
    RefreshConfines(connOf, cfg, s, t.before);
    var s1 := Refresh(cfg, s, t.before);
    var u := Updated(s1.col.sessions, id, conn, t.at, h, observed);
    AssignedFacts(s1.col.sessions, u);
    var c2 := s1.col.(sessions := Assigned(s1.col.sessions, u));
    assert Confined(connOf, c2);
    if |c2.sessions| > MAX_SESSIONS {
      EvictConfines(connOf, c2);
      RefreshConfines(connOf, cfg, s1.(col := EvictOldest(c2)), t.after);
    } else {
      RefreshConfines(connOf, cfg, s1.(col := c2), t.after);
    }
  }

  /** What a step says of its document: one session and one connection for each. */
  ghost predicate Identified(connOf: nat -> nat, a: Step) {
    match a
    case IngestQuote(m, _, _) => m.session == m.doc && m.conn == connOf(m.session)
    case IngestHeartbeat(id, conn, _, _) => conn == connOf(id)
    case IngestDiscovery(_, id, conn, _, _, _) => conn == connOf(id)
    case _ => true
  }

  ghost predicate Orderly(connOf: nat -> nat, s: Server) {
    && Confined(connOf, s.col) && Leased(s.col) && |s.col.sessions| <= MAX_SESSIONS
  }

  lemma ProcessConfines(connOf: nat -> nat, cfg: A.Config, c: Collector, e: A.Envelope)
    requires Confined(connOf, c) && e.session in SessionIds(c.sessions) && e.conn == connOf(e.session)
    ensures Confined(connOf, c.(adapter := A.Process(cfg, c.adapter, e).0))
  {
    AL.PurgeFacts(cfg, c.adapter.seen, A.CollectorTime(e));
    var prev := A.Lookup(c.adapter.quotes, A.KeyOf(e));
    var purged := A.Purge(cfg, c.adapter.seen, A.CollectorTime(e));
    if !A.Raises(e) && A.Assess(cfg, prev, e).Accept? {
      AL.AcceptedFacts(cfg, prev, e);
      var q := A.Assess(cfg, prev, e).quote;
      var k := A.Position(purged, A.IdentityOf(q));
      if k < |purged| {
        AL.MoveToEndFacts(purged, k);
      } else {
        AL.PurgeFacts(cfg, purged + [A.Seen(A.IdentityOf(q), A.CollectorTime(e), q.key)], A.CollectorTime(e));
      }
    }
  }

  lemma GreetConfines(connOf: nat -> nat, cfg: Settings, s: Server, m: Message, t: Clock)
    requires Orderly(connOf, s) && m.conn == connOf(m.session)
    ensures Orderly(connOf, Greet(cfg, s, m, t)) && Greet(cfg, s, m, t).db == s.db
  {
    TouchConfines(connOf, cfg, s, m.session, m.conn, t, None, Some(m.instrument));
    RefreshConfines(connOf, cfg, Touch(cfg, s, m.session, m.conn, t, None, Some(m.instrument)), t.received);
  }

  lemma IngestConfines(connOf: nat -> nat, cfg: Settings, s: Server, m: Message, t: Clock, fault: Fault)
    requires Shaped(s) && Orderly(connOf, s) && m.conn == connOf(m.session)
    ensures Orderly(connOf, Ingest(cfg, s, m, t, fault).0)
  {
    GreetConfines(connOf, cfg, s, m, t);
    var s1 := Greet(cfg, s, m, t);
    if s1.col.active[m.instrument] == Some(m.session) {
      PipelineConfines(connOf, cfg, s1.(log := s1.log + [Normalized(m.instrument, m.session)]), m, t.received,
                       LastSequence(s1.db.ticks, m.doc, m.instrument), fault);
    }
  }

  lemma PipelineConfines(
      connOf: nat -> nat, cfg: Settings, s: Server, m: Message, received: int, stored: Option<int>, fault: Fault)
    requires Orderly(connOf, s) && m.session in SessionIds(s.col.sessions) && m.conn == connOf(m.session)
    ensures Orderly(connOf, Pipeline(cfg, s, EnvelopeOf(m, received, stored), m, fault).0)
  {
    var e := EnvelopeOf(m, received, stored);
    ProcessConfines(connOf, cfg.adapter, s.col, e);
    PipelineShows(cfg, s, e, m, fault);
  }

  /** The pipeline changes only adapter and stores. */
  lemma PipelineShows(cfg: Settings, s: Server, e: A.Envelope, m: Message, fault: Fault)
    ensures var s1 := Pipeline(cfg, s, e, m, fault).0;
            && s1.col == s.col.(adapter := A.Process(cfg.adapter, s.col.adapter, e).0)
            && s1.log == s.log
  {
  }

  lemma BeatConfines(connOf: nat -> nat, cfg: Settings, s: Server, id: nat, conn: nat, h: Heartbeat, t: Clock)
    requires Orderly(connOf, s) && conn == connOf(id)
    ensures Orderly(connOf, Beat(cfg, s, id, conn, h, t))
  {
    TouchConfines(connOf, cfg, s, id, conn, t, Some(h), None);
    var s1 := Touch(cfg, s, id, conn, t, Some(h), None);
    if !h.ready {
      var c := s1.col.(adapter := A.Disconnect(s1.col.adapter, conn, id), active := Released(s1.col.active, id));
      AL.OthersFacts(s1.col.adapter.seen, conn, id);
      assert Confined(connOf, c);
      RefreshConfines(connOf, cfg, s1.(col := c), t.last);
    }
  }

  lemma {:induction false} ExpireShapes(cfg: Settings, c: Collector, now: int, todo: seq<Session>)
    requires forall k | 0 <= k < |c.sessions| :: Complete(c.sessions[k].targets)
    ensures forall k | 0 <= k < |Expire(cfg, c, now, todo).sessions| :: Complete(Expire(cfg, c, now, todo).sessions[k].targets)
    ensures Expire(cfg, c, now, todo).active.Keys == c.active.Keys
    decreases |todo|
  {
    if todo != [] {
      ExpireShapes(cfg, if Expired(cfg, todo[0], now) then Forget(c, todo[0]) else c, now, todo[1..]);
    }
  }

  lemma RefreshShapes(cfg: Settings, s: Server, now: int)
    requires Shaped(s)
    ensures Shaped(Refresh(cfg, s, now))
  {
    ExpireShapes(cfg, s.col, now, s.col.sessions);
  }

  lemma PlaceShapes(s: Server, id: nat, conn: nat, at: int, h: Option<Heartbeat>, observed: Option<Instrument>)
    requires Shaped(s) && (h.Some? ==> Complete(h.value.targets))
    ensures var u := Updated(s.col.sessions, id, conn, at, h, observed);
            Shaped(s.(col := s.col.(sessions := Assigned(s.col.sessions, u))))
  {
    var u := Updated(s.col.sessions, id, conn, at, h, observed);
    assert Complete(u.targets);
  }

  lemma EvictShapes(s: Server)
    requires Shaped(s) && s.col.sessions != []
    ensures Shaped(s.(col := EvictOldest(s.col)))
  {
  }

  lemma TouchShapes(
      cfg: Settings, s: Server, id: nat, conn: nat, t: Clock, h: Option<Heartbeat>, observed: Option<Instrument>)
    requires Shaped(s) && (h.Some? ==> Complete(h.value.targets))
    ensures Shaped(Touch(cfg, s, id, conn, t, h, observed))
  {
    RefreshShapes(cfg, s, t.before);
    var s1 := Refresh(cfg, s, t.before);
    PlaceShapes(s1, id, conn, t.at, h, observed);
    var u := Updated(s1.col.sessions, id, conn, t.at, h, observed);
    var s2 := s1.(col := s1.col.(sessions := Assigned(s1.col.sessions, u)));
    if |s2.col.sessions| > MAX_SESSIONS {
      EvictShapes(s2);
      RefreshShapes(cfg, s2.(col := EvictOldest(s2.col)), t.after);
    } else {
      RefreshShapes(cfg, s2, t.after);
    }
  }

  lemma GreetShapes(cfg: Settings, s: Server, m: Message, t: Clock)
    requires Shaped(s)
    ensures Shaped(Greet(cfg, s, m, t))
  {
    TouchShapes(cfg, s, m.session, m.conn, t, None, Some(m.instrument));
    RefreshShapes(cfg, Touch(cfg, s, m.session, m.conn, t, None, Some(m.instrument)), t.received);
  }

  lemma IngestShapes(cfg: Settings, s: Server, m: Message, t: Clock, fault: Fault)
    requires Shaped(s)
    ensures Shaped(Ingest(cfg, s, m, t, fault).0)
  {
    GreetShapes(cfg, s, m, t);
  }

  lemma BeatShapes(cfg: Settings, s: Server, id: nat, conn: nat, h: Heartbeat, t: Clock)
    requires Shaped(s) && Complete(h.targets)
    ensures Shaped(Beat(cfg, s, id, conn, h, t))
  {
    TouchShapes(cfg, s, id, conn, t, Some(h), None);
    var s1 := Touch(cfg, s, id, conn, t, Some(h), None);
    RefreshShapes(cfg, s1.(col := s1.col.(adapter := A.Disconnect(s1.col.adapter, conn, id),
                                          active := Released(s1.col.active, id))), t.last);
  }

  lemma MoveShapes(cfg: Settings, s: Server, a: Step)
    requires Shaped(s)
    ensures Shaped(Move(cfg, s, a))
  {
    match a {
      case IngestQuote(m, t, fault) => IngestShapes(cfg, s, m, t, fault);
      case IngestHeartbeat(id, conn, h, t) => if Complete(h.targets) { BeatShapes(cfg, s, id, conn, h, t); }
      case IngestDiscovery(eventId, id, conn, received, t, fault) => TouchShapes(cfg, s, id, conn, t, None, None);
      case Poll(now) => RefreshShapes(cfg, s, now);
      case Restart =>
    }
  }

  function Run(cfg: Settings, s: Server, steps: seq<Step>): (r: Server)
    requires Shaped(s)
    ensures Shaped(r)
    decreases |steps|
  {
    if steps == [] then s
    else
      MoveShapes(cfg, s, steps[0]);
      Run(cfg, Move(cfg, s, steps[0]), steps[1..])
  }

  lemma MoveKeepsOrder(connOf: nat -> nat, cfg: Settings, s: Server, a: Step)
    requires Shaped(s) && Orderly(connOf, s) && Identified(connOf, a)
    ensures Orderly(connOf, Move(cfg, s, a))
  {
    match a {
      case IngestQuote(m, t, fault) => IngestConfines(connOf, cfg, s, m, t, fault);
      case IngestHeartbeat(id, conn, h, t) => if Complete(h.targets) { BeatConfines(connOf, cfg, s, id, conn, h, t); }
      case IngestDiscovery(eventId, id, conn, received, t, fault) =>
        TouchConfines(connOf, cfg, s, id, conn, t, None, None);
      case Poll(now) => RefreshConfines(connOf, cfg, s, now);
      case Restart =>
    }
  }

  lemma {:induction false} RunKeepsOrder(connOf: nat -> nat, cfg: Settings, s: Server, steps: seq<Step>)
    requires Shaped(s) && Orderly(connOf, s) && forall a | a in steps :: Identified(connOf, a)
    ensures Orderly(connOf, Run(cfg, s, steps))
    decreases |steps|
  {
    if steps != [] {
      MoveKeepsOrder(connOf, cfg, s, steps[0]);
      MoveShapes(cfg, s, steps[0]);
      RunKeepsOrder(connOf, cfg, Move(cfg, s, steps[0]), steps[1..]);
    }
  }

  /** All keys the listed sessions can have. */
  function KeysOf(connOf: nat -> nat, sessions: seq<Session>): set<A.Key> {
    if sessions == [] then {}
    else
      var s := sessions[0].id;
      {A.Key(connOf(s), s, EURUSD), A.Key(connOf(s), s, GBPUSD), A.Key(connOf(s), s, USDJPY),
       A.Key(connOf(s), s, AUDUSD)} + KeysOf(connOf, sessions[1..])
  }

  lemma {:induction false} KeysOfFacts(connOf: nat -> nat, sessions: seq<Session>)
    ensures |KeysOf(connOf, sessions)| <= 4 * |sessions|
    ensures forall k: A.Key | k.session in SessionIds(sessions) && k.conn == connOf(k.session) ::
              k in KeysOf(connOf, sessions)
  {
    if sessions != [] {
      KeysOfFacts(connOf, sessions[1..]);
      forall k: A.Key | k.session in SessionIds(sessions) && k.conn == connOf(k.session)
        ensures k in KeysOf(connOf, sessions)
      {
        var j :| 0 <= j < |sessions| && sessions[j].id == k.session;
        if j == 0 {
          match k.instrument {
            case EURUSD => assert k == A.Key(connOf(k.session), k.session, EURUSD);
            case GBPUSD => assert k == A.Key(connOf(k.session), k.session, GBPUSD);
            case USDJPY => assert k == A.Key(connOf(k.session), k.session, USDJPY);
            case AUDUSD => assert k == A.Key(connOf(k.session), k.session, AUDUSD);
          }
        } else {
          assert sessions[1..][j - 1].id == k.session;
        }
      }
    }
  }

  /** After every handler there are at most 100 sessions, every lease holder is one of them,
      and the adapter remembers nothing of any other: its state has at most 400 entries. */
  lemma SessionsConfineEverything(connOf: nat -> nat, cfg: Settings, steps: seq<Step>)
    requires forall a | a in steps :: Identified(connOf, a)
    ensures var c := Run(cfg, EMPTY, steps).col;
            && |c.sessions| <= 100
            && (forall i: Instrument :: c.active[i].Some? ==> c.active[i].value in SessionIds(c.sessions))
            && (forall k | k in c.adapter.quotes :: k.session in SessionIds(c.sessions))
            && (forall x | x in c.adapter.seen :: x.key.session in SessionIds(c.sessions))
            && |c.adapter.quotes| <= 400
  {
    RunKeepsOrder(connOf, cfg, EMPTY, steps);
    var c := Run(cfg, EMPTY, steps).col;
    KeysOfFacts(connOf, c.sessions);
    SubsetSize(c.adapter.quotes.Keys, KeysOf(connOf, c.sessions));
    assert |c.adapter.quotes| == |c.adapter.quotes.Keys|;
  }
}

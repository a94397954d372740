/** What a message from the browser does to the session table and the leases, stated from the
    outside: the sender's own entry, everyone else's, and who still holds which pair. */
module SessionLaws {
  import opened Wrappers
  import opened Instruments
  import opened CollectorModel
  import opened CollectorLaws
  import opened LeaseLaws
  import A = AdapterModel

  /** The session's entry that counts at this time, if it has one. */
  ghost predicate Counts(cfg: Settings, sessions: seq<Session>, id: nat, now: int, x: Option<Session>) {
    match x
    case Some(z) => z in sessions && z.id == id && now - z.lastMessage <= cfg.expiry
    case None => forall z | z in sessions && z.id == id :: now - z.lastMessage > cfg.expiry
  }

  /** The entry a message leaves of its session, whose entry was `x` before. An observation of a
      pair makes the session ready and that pair READY; a heartbeat sets readiness and all
      pairs; whatever the message does not speak of is as before, and of a new session not
      ready and missing. */
  ghost predicate Reports(x: Option<Session>, h: Option<Heartbeat>, observed: Option<Instrument>, y: Session) {
    && (y.observerReady <==>
          || observed.Some?
          || (h.Some? && h.value.ready)
          || (h.None? && x.Some? && x.value.observerReady))
    && forall i: Instrument ::
         && i in y.targets
         && (observed == Some(i) ==> y.targets[i] == READY)
         && (observed != Some(i) && h.Some? ==> i in h.value.targets && y.targets[i] == h.value.targets[i])
         && (observed != Some(i) && h.None? && x.Some? ==> i in x.value.targets && y.targets[i] == x.value.targets[i])
         && (observed != Some(i) && h.None? && x.None? ==> y.targets[i] == MISSING)
  }

  lemma {:induction false} FreshExactly(cfg: Settings, sessions: seq<Session>, now: int)
    ensures forall z :: z in Fresh(cfg, sessions, now) <==> z in sessions && now - z.lastMessage <= cfg.expiry
  {
    if sessions != [] {
      FreshExactly(cfg, sessions[1..], now);
      assert forall z :: z in sessions <==> z == sessions[0] || z in sessions[1..];
    }
  }

  lemma OneEntry(sessions: seq<Session>, a: Session, b: Session)
    requires DistinctSessions(sessions) && a in sessions && b in sessions && a.id == b.id
    ensures a == b
  {
    var j :| 0 <= j < |sessions| && sessions[j] == a;
    var k :| 0 <= k < |sessions| && sessions[k] == b;
    assert j == k;
  }

  lemma HasAll(targets: map<Instrument, Target>)
    requires Complete(targets)
    ensures forall i: Instrument :: i in targets
  {
    forall i: Instrument ensures i in targets {
      match i case EURUSD => case GBPUSD => case USDJPY => case AUDUSD =>
    }
  }

  lemma UpdatedReports(
      cfg: Settings, s: Server, id: nat, conn: nat, at: int, h: Option<Heartbeat>, observed: Option<Instrument>,
      now: int, x: Option<Session>)
    requires Shaped(s) && DistinctSessions(s.col.sessions) && (h.Some? ==> Complete(h.value.targets))
    requires Counts(cfg, s.col.sessions, id, now, x)
    ensures var y := Updated(Fresh(cfg, s.col.sessions, now), id, conn, at, h, observed);
            y.id == id && y.conn == conn && y.lastMessage == at && Reports(x, h, observed, y)
  {
    var table := Fresh(cfg, s.col.sessions, now);
    if h.Some? {
      HasAll(h.value.targets);
    }
    FreshExactly(cfg, s.col.sessions, now);
    FreshIsShorter(cfg, s.col.sessions, now);
    var k := IndexOf(table, id);
    if k < |table| {
      assert table[k] in s.col.sessions && Complete(table[k].targets);
      HasAll(table[k].targets);
      OneEntry(s.col.sessions, table[k], x.value);
    } else {
      assert forall z | z in table :: z.id != id;
      assert forall z | z in s.col.sessions && now - z.lastMessage <= cfg.expiry :: z in table;
    }
  }

  /** The sender's entry. A message of a session that has a place leaves one entry of it, with the
      message's connection and time, and otherwise as `Reports` says. */
  lemma TouchReports(
      cfg: Settings, s: Server, id: nat, conn: nat, t: Clock, h: Option<Heartbeat>, observed: Option<Instrument>,
      x: Option<Session>)
      returns (y: Session)
    requires Shaped(s) && DistinctSessions(s.col.sessions) && KeepsPlace(s, id, t.at)
    requires (h.Some? ==> Complete(h.value.targets)) && t.after - t.at <= cfg.expiry
    requires Counts(cfg, s.col.sessions, id, t.before, x)
    ensures var sessions := Touch(cfg, s, id, conn, t, h, observed).col.sessions;
            y in sessions && forall z | z in sessions && z.id == id :: z == y
    ensures y.id == id && y.conn == conn && y.lastMessage == t.at && Reports(x, h, observed, y)
  {
    TouchRecords(cfg, s, id, conn, t, h, observed);
    UpdatedReports(cfg, s, id, conn, t.at, h, observed, t.before, x);
    RefreshKeepsFresh(cfg, s, t.before, A.Key(0, 0, EURUSD));
    var s1 := Refresh(cfg, s, t.before);
    y := Updated(s1.col.sessions, id, conn, t.at, h, observed);
    var s2 := s1.(col := Recorded(s1.col, y));
    RefreshKeepsFresh(cfg, s2, t.after, A.Key(0, 0, EURUSD));
    FreshExactly(cfg, s2.col.sessions, t.after);
  }

  // --------------------------------------------------------- everyone else

  /** The first of the longest silent sessions of a full table, which a new session displaces. */
  ghost predicate Displaced(table: seq<Session>, id: nat, z: Session) {
    && |table| == 100 && id !in SessionIds(table)
    && exists k :: 0 <= k < |table| && table[k] == z
         && (forall j | 0 <= j < |table| :: z.lastMessage <= table[j].lastMessage)
         && (forall j | 0 <= j < k :: z.lastMessage < table[j].lastMessage)
  }

  lemma AssignedOthers(sessions: seq<Session>, u: Session, z: Session)
    requires DistinctSessions(sessions) && z.id != u.id
    ensures z in Assigned(sessions, u) <==> z in sessions
  {
    var k := IndexOf(sessions, u.id);
    if z in sessions {
      var j :| 0 <= j < |sessions| && sessions[j] == z;
      assert Assigned(sessions, u)[j] == z;
    }
  }

  lemma WithoutOthers(sessions: seq<Session>, k: nat, z: Session)
    requires DistinctSessions(sessions) && k < |sessions|
    ensures z in Without(sessions, sessions[k].id) <==> z in sessions && z != sessions[k]
  {
    WithoutFacts(sessions, sessions[k].id);
    if z in sessions && z != sessions[k] {
      var j :| 0 <= j < |sessions| && sessions[j] == z;
      assert j != k;
      WithoutKeepsOthers(sessions, k, z);
    }
    if z in Without(sessions, sessions[k].id) {
      var t := Without(sessions, sessions[k].id);
      var j :| 0 <= j < |t| && t[j] == z;
      assert z.id in SessionIds(t);
    }
  }

  function IdList(sessions: seq<Session>): seq<nat> {
    seq(|sessions|, k requires 0 <= k < |sessions| => sessions[k].id)
  }

  /** A listed session keeps its place in the table, a new one comes last. */
  lemma PlacesAreKept(sessions: seq<Session>, u: Session)
    ensures IdList(Assigned(sessions, u)) ==
              IdList(sessions) + (if u.id in SessionIds(sessions) then [] else [u.id])
  {
    if IndexOf(sessions, u.id) < |sessions| {
      assert sessions[IndexOf(sessions, u.id)].id in SessionIds(sessions);
    }
  }

  /** Whom recording a message displaces. */
  lemma RecordedOthers(s: Server, u: Session, z: Session)
    requires Shaped(s) && DistinctSessions(s.col.sessions) && KeepsPlace(s, u.id, u.lastMessage) && z.id != u.id
    ensures z in Recorded(s.col, u).sessions <==> z in s.col.sessions && !Displaced(s.col.sessions, u.id, z)
  {
    var table, placed := s.col.sessions, Assigned(s.col.sessions, u);
    AssignedFacts(table, u);
    AssignedOthers(table, u, z);
    if |placed| > MAX_SESSIONS {
      var k := Oldest(placed);
      NewestIsLast(table, u);
      OldestIsOldest(placed);
      WithoutOthers(placed, k, z);
      assert placed == table + [u] && k < |table| && placed[k] == table[k];
      OldestDisplaced(table, u, k, z);
    } else {
      NoneDisplaced(table, u);
    }
  }

  lemma NoneDisplaced(table: seq<Session>, u: Session)
    requires DistinctSessions(table) && |Assigned(table, u)| <= MAX_SESSIONS
    ensures !(|table| == 100 && u.id !in SessionIds(table))
  {
    if u.id in SessionIds(table) {
    } else {
      assert IndexOf(table, u.id) == |table|;
    }
  }

  lemma OldestDisplaced(table: seq<Session>, u: Session, k: nat, z: Session)
    requires DistinctSessions(table + [u]) && |table| == MAX_SESSIONS && k < |table| && z.id != u.id
    requires forall j | 0 <= j < |table| + 1 :: (table + [u])[k].lastMessage <= (table + [u])[j].lastMessage
    requires forall j | 0 <= j < k :: (table + [u])[k].lastMessage < (table + [u])[j].lastMessage
    ensures z in table ==> (Displaced(table, u.id, z) <==> z == table[k])
  {
    var placed := table + [u];
    assert forall j | 0 <= j < |table| :: placed[j] == table[j];
    assert placed[|table|] == u;
    forall id | id in SessionIds(table) ensures id != u.id {
      var j :| 0 <= j < |table| && table[j].id == id;
      assert placed[j].id != placed[|table|].id;
    }
    if z in table && Displaced(table, u.id, z) {
      var j :| 0 <= j < |table| && table[j] == z
        && (forall n | 0 <= n < |table| :: z.lastMessage <= table[n].lastMessage)
        && (forall n | 0 <= n < j :: z.lastMessage < table[n].lastMessage);
      assert j == k;
    }
  }

  /** A message changes no other session's entry. Of these exactly those stay that were heard of
      within the expiry time, before and after, and are not displaced. */
  lemma TouchSparesOthers(
      cfg: Settings, s: Server, id: nat, conn: nat, t: Clock, h: Option<Heartbeat>, observed: Option<Instrument>,
      z: Session)
    requires Shaped(s) && DistinctSessions(s.col.sessions) && KeepsPlace(s, id, t.at) && z.id != id
    requires h.Some? ==> Complete(h.value.targets)
    ensures z in Touch(cfg, s, id, conn, t, h, observed).col.sessions <==>
              && z in s.col.sessions && t.before - z.lastMessage <= cfg.expiry && t.after - z.lastMessage <= cfg.expiry
              && !Displaced(Fresh(cfg, s.col.sessions, t.before), id, z)
  {
    TouchRecords(cfg, s, id, conn, t, h, observed);
    RefreshKeepsPlace(cfg, s, t.before, id, t.at);
    RefreshKeepsFresh(cfg, s, t.before, A.Key(0, 0, EURUSD));
    FreshExactly(cfg, s.col.sessions, t.before);
    var s1 := Refresh(cfg, s, t.before);
    var u := Updated(s1.col.sessions, id, conn, t.at, h, observed);
    RecordedOthers(s1, u, z);
    var s2 := s1.(col := Recorded(s1.col, u));
    RefreshKeepsFresh(cfg, s2, t.after, A.Key(0, 0, EURUSD));
    FreshExactly(cfg, s2.col.sessions, t.after);
  }

  // ------------------------------------------------------------------ leases

  /** Expiry releases exactly the pairs held by the sessions that expire. */
  lemma {:induction false} ExpiryReleasesExactly(cfg: Settings, c: Collector, now: int, todo: seq<Session>, i: Instrument)
    requires i in c.active
    ensures var c1 := Expire(cfg, c, now, todo);
            && i in c1.active
            && c1.active[i] ==
                 if exists z | z in todo :: now - z.lastMessage > cfg.expiry && c.active[i] == Some(z.id)
                 then None else c.active[i]
    decreases |todo|
  {
    if todo != [] {
      ExpiryReleasesExactly(cfg, if Expired(cfg, todo[0], now) then Forget(c, todo[0]) else c, now, todo[1..], i);
      assert forall z :: z in todo <==> z == todo[0] || z in todo[1..];
    }
  }

  /** A source of this pair: heard of recently, ready, its target neither missing nor ambiguous. */
  ghost predicate Source(cfg: Settings, z: Session, i: Instrument, now: int) {
    && now - z.lastMessage <= cfg.staleAfter && now - z.lastMessage <= cfg.expiry
    && z.observerReady && i in z.targets && z.targets[i] != MISSING && z.targets[i] != AMBIGUOUS
  }

  lemma RefreshKeepsSource(cfg: Settings, s: Server, now: int, i: Instrument, z: Session)
    requires DistinctSessions(s.col.sessions) && z in s.col.sessions && Source(cfg, z, i, now)
    requires i in s.col.active && s.col.active[i] == Some(z.id)
    ensures var c := Refresh(cfg, s, now).col; i in c.active && c.active[i] == Some(z.id)
  {
    var c := Expire(cfg, s.col, now, s.col.sessions);
    RefreshKeepsFresh(cfg, s, now, A.Key(0, 0, i));
    FreshExactly(cfg, s.col.sessions, now);
    ExpireReleases(cfg, s.col, now, s.col.sessions, i);
    var k :| 0 <= k < |c.sessions| && c.sessions[k] == z;
    assert z.id in SessionIds(c.sessions);
    EligibleExactlyWhen(cfg, c.sessions, i, now, z.id);
    FailoverPicksSmallest(cfg, c, now, i);
  }

  /** A message takes no pair from its holder, be it the sender or another, that is a source of
      the pair before and after it. */
  lemma TouchKeepsSource(
      cfg: Settings, s: Server, id: nat, conn: nat, t: Clock, h: Option<Heartbeat>, observed: Option<Instrument>,
      i: Instrument, z: Session, y: Session)
    requires Shaped(s) && DistinctSessions(s.col.sessions) && KeepsPlace(s, id, t.at)
    requires h.Some? ==> Complete(h.value.targets)
    requires z in s.col.sessions && Source(cfg, z, i, t.before) && i in s.col.active && s.col.active[i] == Some(z.id)
    requires y in Touch(cfg, s, id, conn, t, h, observed).col.sessions && y.id == z.id && Source(cfg, y, i, t.after)
    ensures var c := Touch(cfg, s, id, conn, t, h, observed).col; i in c.active && c.active[i] == Some(z.id)
  {
    TouchRecords(cfg, s, id, conn, t, h, observed);
    RefreshKeepsSource(cfg, s, t.before, i, z);
    var s1 := Refresh(cfg, s, t.before);
    var u := Updated(s1.col.sessions, id, conn, t.at, h, observed);
    var s2 := s1.(col := Recorded(s1.col, u));
    RefreshKeepsFresh(cfg, s2, t.after, A.Key(0, 0, i));
    FreshExactly(cfg, s2.col.sessions, t.after);
    RefreshKeepsSource(cfg, s2, t.after, i, y);
  }

  /** So an observation of one pair costs its sender no lease of another. */
  lemma ObserverKeepsOtherPairs(cfg: Settings, s: Server, conn: nat, t: Clock, j: Instrument, i: Instrument, z: Session)
    requires Shaped(s) && DistinctSessions(s.col.sessions) && |s.col.sessions| <= MAX_SESSIONS && i != j
    requires z in s.col.sessions && Source(cfg, z, i, t.before) && i in s.col.active && s.col.active[i] == Some(z.id)
    requires t.after - t.at <= cfg.staleAfter && t.after - t.at <= cfg.expiry
    ensures var c := Touch(cfg, s, z.id, conn, t, None, Some(j)).col; i in c.active && c.active[i] == Some(z.id)
  {
    var y := TouchReports(cfg, s, z.id, conn, t, None, Some(j), Some(z));
    TouchKeepsSource(cfg, s, z.id, conn, t, None, Some(j), i, z, y);
  }

  /** Nor does any message cost another session's lease, while that session is a source and is
      not displaced. */
  lemma OthersKeepTheirPairs(
      cfg: Settings, s: Server, id: nat, conn: nat, t: Clock, h: Option<Heartbeat>, observed: Option<Instrument>,
      i: Instrument, z: Session)
    requires Shaped(s) && DistinctSessions(s.col.sessions) && KeepsPlace(s, id, t.at) && z.id != id
    requires h.Some? ==> Complete(h.value.targets)
    requires z in s.col.sessions && Source(cfg, z, i, t.before) && Source(cfg, z, i, t.after)
    requires i in s.col.active && s.col.active[i] == Some(z.id)
    requires !Displaced(Fresh(cfg, s.col.sessions, t.before), id, z)
    ensures var c := Touch(cfg, s, id, conn, t, h, observed).col; i in c.active && c.active[i] == Some(z.id)
  {
    TouchSparesOthers(cfg, s, id, conn, t, h, observed, z);
    TouchKeepsSource(cfg, s, id, conn, t, h, observed, i, z, z);
  }

  /** The decision about a quote is made on sessions that are fresh, and by leases that are
      eligible, at the time the quote was received. */
  lemma GreetingIsCurrent(cfg: Settings, s: Server, m: Message, t: Clock, i: Instrument)
    requires Shaped(s) && FaithfulOrNew(cfg, s)
    ensures var c := Greet(cfg, s, m, t).col;
            && (forall z | z in c.sessions :: t.received - z.lastMessage <= cfg.expiry)
            && i in c.active
            && (c.active[i].Some? ==>
                  exists z | z in c.sessions :: z.id == c.active[i].value && t.received - z.lastMessage <= cfg.staleAfter)
  {
    var s1 := Touch(cfg, s, m.session, m.conn, t, None, Some(m.instrument));
    TouchIsFaithful(cfg, s, m.session, m.conn, t, None, Some(m.instrument));
    RefreshKeepsFresh(cfg, s1, t.received, A.Key(0, 0, i));
    FreshExactly(cfg, s1.col.sessions, t.received);
    var c := Expire(cfg, s1.col, t.received, s1.col.sessions);
    ExpireReleases(cfg, s1.col, t.received, s1.col.sessions, i);
    if Leases(cfg, c, t.received)[i].Some? {
      LeasesAreEligible(cfg, c, t.received, i);
      EligibleExactlyWhen(cfg, c.sessions, i, t.received, Leases(cfg, c, t.received)[i].value);
    }
  }
}

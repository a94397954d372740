/** The collector's handlers as methods over its mutable state, each proved to make the
    step of CollectorModel. */
module CollectorAppClass {
  import opened Wrappers
  import opened Instruments
  import opened CollectorModel
  import opened CollectorLaws
  import A = AdapterModel
  import opened IcMarketsAdapterClass

  /** The two tables. */
  class Storage {
    var raw: seq<RawRow>
    var ticks: seq<TickRow>

    ghost function View(): Database
      reads this
    {
      Database(raw, ticks)
    }

    constructor ()
      ensures View() == Database([], [])
    {
      raw, ticks := [], [];
    }

    method HasRaw(id: nat) returns (found: bool)
      ensures found <==> CollectorModel.HasRaw(View(), id)
    {
      var k := 0;
      while k < |raw|
        invariant k <= |raw| && forall j | 0 <= j < k :: raw[j].id != id
      {
        if raw[k].id == id {
          return true;
        }
        k := k + 1;
      }
      return false;
    }

    method StoreRaw(row: RawRow)
      modifies this
      ensures View() == CollectorModel.StoreRaw(old(View()), row)
    {
      if row !in raw {
        raw := raw + [row];
      }
    }

    method StoreTick(row: TickRow)
      modifies this
      ensures View() == old(View()).(ticks := old(ticks) + [row])
    {
      ticks := ticks + [row];
    }

    method LastObservationSequence(doc: nat, i: Instrument) returns (last: Option<int>)
      ensures last == LastSequence(ticks, doc, i)
    {
      last := None;
      var k := 0;
      while k < |ticks|
        invariant k <= |ticks| && last == LastSequence(ticks[..k], doc, i)
      {
        assert ticks[..k + 1][..k] == ticks[..k];
        var t := ticks[k];
        if t.doc == doc && t.instrument == i && t.sequence.Some?
           && (last == None || last.value < t.sequence.value) {
          last := t.sequence;
        }
        k := k + 1;
      }
      assert ticks[..k] == ticks;
    }
  }

  class CollectorApp {
    const settings: Settings
    const adapter: IcMarketsAdapter
    const storage: Storage
    var sessions: seq<Session>
    var active: map<Instrument, Option<nat>>
    ghost var log: seq<LogEntry>

    ghost function View(): Server
      reads this, adapter, storage
    {
      Server(Collector(sessions, active, adapter.View()), storage.View(), log)
    }

    ghost predicate Valid()
      reads this, adapter, storage
    {
      adapter.config == settings.adapter && Shaped(View())
    }

    constructor (settings: Settings, storage: Storage)
      ensures Valid() && this.settings == settings && this.storage == storage && fresh(adapter)
      ensures View() == Server(NOTHING, storage.View(), [])
    {
      this.settings := settings;
      this.storage := storage;
      adapter := new IcMarketsAdapter(settings.adapter);
      sessions := [];
      active := Everywhere(None);
      log := [];
    }

    method Release(id: nat)
      requires forall i: Instrument :: i in active
      modifies this`active
      ensures active == Released(old(active), id)
    {
      var k := 0;
      while k < |SUPPORTED|
        invariant k <= |SUPPORTED| && active.Keys == old(active).Keys
        invariant forall i: Instrument | i in active ::
                    active[i] == if Rank(i) < k then Released(old(active), id)[i] else old(active)[i]
      {
        var i := SUPPORTED[k];
        if active[i] == Some(id) {
          active := active[i := None];
        }
        k := k + 1;
      }
    }

    method ExpireBridgeSessions(now: int)
      requires Valid()
      modifies this`sessions, this`active, adapter
      ensures Valid() && View().col == Expire(settings, old(View().col), now, old(sessions))
    {
      var todo := sessions;
      var k := 0;
      while k < |todo|
        invariant k <= |todo| && Valid()
        invariant Expire(settings, old(View().col), now, todo) == Expire(settings, View().col, now, todo[k..])
      {
        var s := todo[k];
        if now - s.lastMessage > settings.expiry {
          adapter.OnDisconnect(s.conn, s.id);
          sessions := Without(sessions, s.id);
          Release(s.id);
        }
        assert todo[k..][1..] == todo[k + 1..];
        k := k + 1;
      }
    }

    /** Keeps each eligible holder and replaces the others. */
    method Elect(now: int)
      requires forall i: Instrument :: i in active
      modifies this`active
      ensures active == Leases(settings, old(View().col), now)
    {
      var k := 0;
      while k < |SUPPORTED|
        invariant k <= |SUPPORTED| && active.Keys == old(active).Keys
        invariant forall i: Instrument | Rank(i) < k ::
                    active[i] == Lease(old(active)[i], EligibleIds(settings, sessions, i, now))
        invariant forall i: Instrument | Rank(i) >= k :: active[i] == old(active)[i]
      {
        var i := SUPPORTED[k];
        forall j: Instrument | Rank(j) == k
          ensures j == i
        {
          RankInverse(j);
        }
        var eligible := EligibleIds(settings, sessions, i, now);
        var current := active[i];
        if !(current.Some? && current.value in eligible) {
          active := active[i := Least(eligible)];
        }
        k := k + 1;
      }
    }

    method RefreshActiveSources(now: int)
      requires Valid()
      modifies this`sessions, this`active, this`log, adapter
      ensures Valid() && View() == Refresh(settings, old(View()), now)
    {
      RefreshShapes(settings, View(), now);
      ExpireBridgeSessions(now);
      Elect(now);
      log := log + [Refreshed(sessions, now)];
    }

    /** The session's new entry, and the eviction when the table is over its bound. */
    method Place(updated: Session)
      requires Valid() && Complete(updated.targets)
      modifies this`sessions, adapter
      ensures Valid()
      ensures var c := old(View().col).(sessions := Assigned(old(sessions), updated));
              View() == old(View()).(col := if |c.sessions| > MAX_SESSIONS then EvictOldest(c) else c)
    {
      sessions := Assigned(sessions, updated);
      if |sessions| > MAX_SESSIONS {
        var evicted := sessions[Oldest(sessions)];
        adapter.OnDisconnect(evicted.conn, evicted.id);
        sessions := Without(sessions, evicted.id);
      }
    }

    method TouchBridgeSession(
        id: nat, conn: nat, t: Clock, heartbeat: Option<Heartbeat>, observed: Option<Instrument>)
      requires Valid() && (heartbeat.Some? ==> Complete(heartbeat.value.targets))
      modifies this`sessions, this`active, this`log, adapter
      ensures Valid() && View() == Touch(settings, old(View()), id, conn, t, heartbeat, observed)
    {
      RefreshActiveSources(t.before);
      var updated := Updated(sessions, id, conn, t.at, heartbeat, observed);
      Place(updated);
      RefreshActiveSources(t.after);
    }

    method IngestBridgeHeartbeat(id: nat, conn: nat, h: Heartbeat, t: Clock)
      requires Valid() && Complete(h.targets)
      modifies this`sessions, this`active, this`log, adapter
      ensures Valid() && View() == Move(settings, old(View()), Step.IngestHeartbeat(id, conn, h, t))
    {
      TouchBridgeSession(id, conn, t, Some(h), None);
      if !h.ready {
        adapter.OnDisconnect(conn, id);
        Release(id);
        RefreshActiveSources(t.last);
      }
    }

    /** Pipeline.process: the adapter first, then raw, then the tick. */
    method Process(e: A.Envelope, m: Message, fault: Fault) returns (answer: Answer)
      requires Valid()
      modifies adapter, storage
      ensures Valid() && View() == Pipeline(settings, old(View()), e, m, fault).0
      ensures answer == Pipeline(settings, old(View()), e, m, fault).1
    {
      var output := adapter.Process(e);
      if output.Raised? || fault.BeforeRaw? {
        return Failed;
      }
      storage.StoreRaw(RawRow(m.eventId, m.observedAt));
      if fault.AfterRaw? {
        return Failed;
      }
      if output.tick.Some? {
        storage.StoreTick(RowOf(m, output.tick.value));
      }
      if fault.AfterTick? {
        return Failed;
      }
      return Accepted(output.rules, output.tick.Some?);
    }

    method IngestProvider(m: Message, t: Clock, fault: Fault) returns (answer: Answer)
      requires Valid()
      modifies this`sessions, this`active, this`log, adapter, storage
      ensures Valid() && View() == Ingest(settings, old(View()), m, t, fault).0
      ensures answer == Ingest(settings, old(View()), m, t, fault).1
    {
      TouchBridgeSession(m.session, m.conn, t, None, Some(m.instrument));
      RefreshActiveSources(t.received);
      if active[m.instrument] != Some(m.session) {
        log := log + [Standby(m.eventId)];
        return StandbySource;
      }
      if fault.NoLookup? {
        return Failed;
      }
      var duplicate := storage.HasRaw(m.eventId);
      if duplicate {
        return DuplicateEvent;
      }
      if fault.NotProcessed? {
        return Failed;
      }
      var persisted := storage.LastObservationSequence(m.doc, m.instrument);
      log := log + [Normalized(m.instrument, m.session)];
      answer := Process(EnvelopeOf(m, t.received, persisted), m, fault);
    }

    method IngestDiscovery(eventId: nat, id: nat, conn: nat, received: int, t: Clock, fault: Fault)
      returns (answer: Answer)
      requires Valid()
      modifies this`sessions, this`active, this`log, adapter, storage
      ensures Valid() && View() == Discover(settings, old(View()), eventId, id, conn, received, t, fault).0
      ensures answer == Discover(settings, old(View()), eventId, id, conn, received, t, fault).1
    {
      TouchBridgeSession(id, conn, t, None, None);
      if fault.NoLookup? {
        return Failed;
      }
      var duplicate := storage.HasRaw(eventId);
      if duplicate {
        return DuplicateEvent;
      }
      if fault.NotProcessed? || fault.BeforeRaw? {
        return Failed;
      }
      storage.StoreRaw(RawRow(eventId, received));
      if !fault.Healthy? {
        return Failed;
      }
      return Accepted([], false);
    }
  }
}

/** The collector's session table, source lease, ingest path and stores (main.py,
    pipeline.py, postgres.py). One handler is one step; where a store can fail, the step
    says so. */
module CollectorModel {
  import opened Wrappers
  import opened Instruments
  import A = AdapterModel

  datatype Target = FOUND | READY | MISSING | AMBIGUOUS | STALE

  /** `id` is the session id; ids of documents compare like the documents. */
  datatype Session = Session(
    id: nat, conn: nat, lastMessage: int, observerReady: bool, targets: map<Instrument, Target>)

  datatype Settings = Settings(staleAfter: int, expiry: int, adapter: A.Config)

  const MAX_SESSIONS := 100

  /** What happened, for the laws; no code reads it. */
  datatype LogEntry =
    | Refreshed(sessions: seq<Session>, now: int)
    | Normalized(instrument: Instrument, session: nat)
    | Standby(eventId: nat)

  /** Everything a restart loses. The session table is a dictionary in insertion order. */
  datatype Collector = Collector(
    sessions: seq<Session>, active: map<Instrument, Option<nat>>, adapter: A.State)

  datatype RawRow = RawRow(id: nat, received: int)

  datatype TickRow = TickRow(
    rawId: nat, doc: nat, instrument: Instrument, sequence: Option<int>, bid: A.Decimal, ask: A.Decimal)

  datatype Database = Database(raw: seq<RawRow>, ticks: seq<TickRow>)

  datatype Server = Server(col: Collector, db: Database, log: seq<LogEntry>)

  const NOTHING := Collector([], Everywhere<Option<nat>>(None), A.START)

  const EMPTY := Server(NOTHING, Database([], []), [])

  ghost predicate Shaped(s: Server) {
    && (forall i: Instrument :: i in s.col.active)
    && (forall k | 0 <= k < |s.col.sessions| :: Complete(s.col.sessions[k].targets))
  }

  predicate Complete(targets: map<Instrument, Target>) {
    EURUSD in targets && GBPUSD in targets && USDJPY in targets && AUDUSD in targets
  }

  // ---------------------------------------------------------- session table

  function IndexOf(sessions: seq<Session>, id: nat): (k: nat)
    ensures k <= |sessions|
    ensures k < |sessions| ==> sessions[k].id == id
    ensures forall j | 0 <= j < k :: sessions[j].id != id
  {
    if sessions == [] || sessions[0].id == id then 0 else 1 + IndexOf(sessions[1..], id)
  }

  function Without(sessions: seq<Session>, id: nat): seq<Session> {
    var k := IndexOf(sessions, id);
    if k < |sessions| then sessions[..k] + sessions[k + 1..] else sessions
  }

  /** Assigning to an existing key keeps its place, a new key goes last. */
  function Assigned(sessions: seq<Session>, s: Session): seq<Session> {
    var k := IndexOf(sessions, s.id);
    if k < |sessions| then sessions[k := s] else sessions + [s]
  }

  function Released(active: map<Instrument, Option<nat>>, id: nat): map<Instrument, Option<nat>> {
    map i | i in active :: if active[i] == Some(id) then None else active[i]
  }

  /** An expired session: disconnected, deleted and released. */
  function Forget(c: Collector, s: Session): Collector {
    Collector(Without(c.sessions, s.id), Released(c.active, s.id), A.Disconnect(c.adapter, s.conn, s.id))
  }

  predicate Expired(cfg: Settings, s: Session, now: int) {
    now - s.lastMessage > cfg.expiry
  }

  function Expire(cfg: Settings, c: Collector, now: int, todo: seq<Session>): Collector
    decreases |todo|
  {
    if todo == [] then c
    else Expire(cfg, if Expired(cfg, todo[0], now) then Forget(c, todo[0]) else c, now, todo[1..])
  }

  predicate Eligible(cfg: Settings, s: Session, i: Instrument, now: int) {
    && now - s.lastMessage <= cfg.staleAfter
    && s.observerReady
    && i in s.targets && s.targets[i] in {FOUND, READY, STALE}
  }

  function EligibleIds(cfg: Settings, sessions: seq<Session>, i: Instrument, now: int): seq<nat> {
    if sessions == [] then []
    else (if Eligible(cfg, sessions[0], i, now) then [sessions[0].id] else [])
         + EligibleIds(cfg, sessions[1..], i, now)
  }

  /** min(ids, default=None) */
  function Least(ids: seq<nat>): Option<nat> {
    if ids == [] then None
    else
      var rest := Least(ids[1..]);
      if rest.Some? && rest.value < ids[0] then rest else Some(ids[0])
  }

  function Lease(current: Option<nat>, eligible: seq<nat>): Option<nat> {
    if current.Some? && current.value in eligible then current else Least(eligible)
  }

  function Leases(cfg: Settings, c: Collector, now: int): map<Instrument, Option<nat>> {
    map i | i in c.active :: Lease(c.active[i], EligibleIds(cfg, c.sessions, i, now))
  }

  /** refresh_active_sources, with its log entry. */
  function Refresh(cfg: Settings, s: Server, now: int): Server {
    var c := Expire(cfg, s.col, now, s.col.sessions);
    Server(c.(active := Leases(cfg, c, now)), s.db, s.log + [Refreshed(c.sessions, now)])
  }

  /** The first session with the least last_message. */
  function Oldest(sessions: seq<Session>): (k: nat)
    requires sessions != []
    ensures k < |sessions|
  {
    if |sessions| == 1 then 0
    else
      var k := 1 + Oldest(sessions[1..]);
      if sessions[k].lastMessage < sessions[0].lastMessage then k else 0
  }

  function EvictOldest(c: Collector): Collector
    requires c.sessions != []
  {
    var s := c.sessions[Oldest(c.sessions)];
    c.(sessions := Without(c.sessions, s.id), adapter := A.Disconnect(c.adapter, s.conn, s.id))
  }

  datatype Heartbeat = Heartbeat(ready: bool, targets: map<Instrument, Target>)

  /** Clock readings of one handler. */
  datatype Clock = Clock(received: int, before: int, at: int, after: int, last: int)

  function Updated(
      sessions: seq<Session>, id: nat, conn: nat, at: int,
      heartbeat: Option<Heartbeat>, observed: Option<Instrument>): Session
  {
    var k := IndexOf(sessions, id);
    var ready :=
      if heartbeat.Some? then heartbeat.value.ready
      else k < |sessions| && sessions[k].observerReady;
    var targets :=
      if heartbeat.Some? then heartbeat.value.targets
      else if k < |sessions| then sessions[k].targets
      else Everywhere(MISSING);
    if observed.Some? then Session(id, conn, at, true, targets[observed.value := READY])
    else Session(id, conn, at, ready, targets)
  }

  /** touch_bridge_session */
  function Touch(
      cfg: Settings, s: Server, id: nat, conn: nat, t: Clock,
      heartbeat: Option<Heartbeat>, observed: Option<Instrument>): Server
  {
    var s1 := Refresh(cfg, s, t.before);
    var c2 := s1.col.(sessions :=
      Assigned(s1.col.sessions, Updated(s1.col.sessions, id, conn, t.at, heartbeat, observed)));
    var c3 := if |c2.sessions| > MAX_SESSIONS then EvictOldest(c2) else c2;
    Refresh(cfg, s1.(col := c3), t.after)
  }

  // ------------------------------------------------------------------ stores

  predicate HasRaw(db: Database, id: nat) {
    exists k :: 0 <= k < |db.raw| && db.raw[k].id == id
  }

  /** ON CONFLICT (raw_event_id, received_time) DO NOTHING */
  function StoreRaw(db: Database, row: RawRow): Database {
    if row in db.raw then db else db.(raw := db.raw + [row])
  }

  function LastSequence(ticks: seq<TickRow>, doc: nat, i: Instrument): Option<int> {
    if ticks == [] then None
    else
      var rest := LastSequence(ticks[..|ticks| - 1], doc, i);
      var t := ticks[|ticks| - 1];
      if t.doc == doc && t.instrument == i && t.sequence.Some?
         && (rest == None || rest.value < t.sequence.value)
      then t.sequence else rest
  }

  // ---------------------------------------------------------------- handlers

  datatype Message = Message(
    eventId: nat, instrument: Instrument, doc: nat, session: nat, conn: nat, observedAt: int,
    sequence: Option<int>, bid: Option<A.Decimal>, ask: Option<A.Decimal>, oversize: bool)

  /** Where an ingest fails: at the lookup of its event, before the pipeline ran (queue full,
      database down), between the adapter and the raw store, after the raw store, or after
      everything was stored. */
  datatype Fault = Healthy | NoLookup | NotProcessed | BeforeRaw | AfterRaw | AfterTick

  datatype Answer =
    | StandbySource
    | DuplicateEvent
    | Accepted(rules: seq<A.Rule>, published: bool)
    | Failed

  function EnvelopeOf(m: Message, received: int, persisted: Option<int>): A.Envelope {
    A.Envelope(
      m.eventId, m.conn, m.session, Some(m.doc), m.sequence, Some(m.observedAt), Some(received),
      m.observedAt, A.Snapshot,
      A.Object(Some(m.instrument), true, A.Absent, None, m.bid, m.ask), m.oversize, true, persisted)
  }

  function RowOf(m: Message, tick: A.Tick): TickRow {
    TickRow(tick.rawId, m.doc, tick.key.instrument, tick.sequence, tick.bid, tick.ask)
  }

  /** Pipeline.process: adapter, then raw, then quality, then tick. */
  function Pipeline(cfg: Settings, s: Server, e: A.Envelope, m: Message, fault: Fault): (Server, Answer) {
    var (adapter, out) := A.Process(cfg.adapter, s.col.adapter, e);
    var s1 := s.(col := s.col.(adapter := adapter));
    if out.Raised? || fault.BeforeRaw? then (s1, Failed)
    else
      var s2 := s1.(db := StoreRaw(s1.db, RawRow(m.eventId, m.observedAt)));
      if fault.AfterRaw? then (s2, Failed)
      else
        var s3 :=
          if out.tick.Some?
          then s2.(db := s2.db.(ticks := s2.db.ticks + [RowOf(m, out.tick.value)]))
          else s2;
        (s3, if fault.AfterTick? then Failed else Accepted(out.rules, out.tick.Some?))
  }

  /** The session bookkeeping that precedes an ingest's decision. */
  function Greet(cfg: Settings, s: Server, m: Message, t: Clock): Server {
    Refresh(cfg, Touch(cfg, s, m.session, m.conn, t, None, Some(m.instrument)), t.received)
  }

  function Ingest(cfg: Settings, s: Server, m: Message, t: Clock, fault: Fault): (Server, Answer)
    requires Shaped(s)
  {
    var s1 := Greet(cfg, s, m, t);
    if m.instrument !in s1.col.active || s1.col.active[m.instrument] != Some(m.session) then
      (s1.(log := s1.log + [Standby(m.eventId)]), StandbySource)
    else if fault.NoLookup? then (s1, Failed)
    else if HasRaw(s1.db, m.eventId) then (s1, DuplicateEvent)
    else if fault.NotProcessed? then (s1, Failed)
    else
      var persisted := LastSequence(s1.db.ticks, m.doc, m.instrument);
      var s2 := s1.(log := s1.log + [Normalized(m.instrument, m.session)]);
      Pipeline(cfg, s2, EnvelopeOf(m, t.received, persisted), m, fault)
  }

  function Beat(cfg: Settings, s: Server, id: nat, conn: nat, h: Heartbeat, t: Clock): Server {
    var s1 := Touch(cfg, s, id, conn, t, Some(h), None);
    if h.ready then s1
    else
      Refresh(cfg, s1.(col := s1.col.(adapter := A.Disconnect(s1.col.adapter, conn, id),
                                      active := Released(s1.col.active, id))), t.last)
  }

  function Discover(cfg: Settings, s: Server, eventId: nat, id: nat, conn: nat, received: int, t: Clock, fault: Fault)
    : (Server, Answer)
  {
    var s1 := Touch(cfg, s, id, conn, t, None, None);
    if fault.NoLookup? then (s1, Failed)
    else if HasRaw(s1.db, eventId) then (s1, DuplicateEvent)
    else if fault.NotProcessed? || fault.BeforeRaw? then (s1, Failed)
    else
      (s1.(db := StoreRaw(s1.db, RawRow(eventId, received))),
       if fault.Healthy? then Accepted([], false) else Failed)
  }

  datatype Step =
    | IngestQuote(message: Message, clock: Clock, fault: Fault)
    | IngestHeartbeat(id: nat, conn: nat, heartbeat: Heartbeat, clock: Clock)
    | IngestDiscovery(eventId: nat, id: nat, conn: nat, received: int, clock: Clock, fault: Fault)
    | Poll(now: int)      // a health view
    | Restart             // a new process: the stores survive

  /** A heartbeat without all four pairs is answered 422 before its handler runs. */
  function Move(cfg: Settings, s: Server, a: Step): Server
    requires Shaped(s)
  {
    match a
    case IngestQuote(m, t, fault) => Ingest(cfg, s, m, t, fault).0
    case IngestHeartbeat(id, conn, h, t) => if Complete(h.targets) then Beat(cfg, s, id, conn, h, t) else s
    case IngestDiscovery(eventId, id, conn, received, t, fault) =>
      Discover(cfg, s, eventId, id, conn, received, t, fault).0
    case Poll(now) => Refresh(cfg, s, now)
    case Restart => s.(col := NOTHING)
  }
}

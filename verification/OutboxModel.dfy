/** The persistent outbox of the browser bridge (outbox.ts) as a state machine. A step is
    what happens between two points where other code can run: one serialized storage
    operation, one decision of the drain loop, one delivery answer, or a worker crash. */
module OutboxModel {
  import opened Wrappers
  import opened Instruments
  import RR = RoundRobin

  datatype Event<+B> = Event(
    id: nat, instrument: Option<Instrument>, body: B, attempts: nat, nextAttemptAt: int)

  datatype PairStats = PairStats(
    produced: nat, acknowledged: nat, retries: nat, dropped: nat, rejected: nat)

  datatype Stats = Stats(total: PairStats, byInstrument: map<Instrument, PairStats>)

  datatype Field = Produced | Acknowledged | Retries | Dropped | Rejected

  datatype Group = Pair(instrument: Instrument) | Discovery

  const GROUPS: seq<Group> := [Pair(EURUSD), Pair(GBPUSD), Pair(USDJPY), Pair(AUDUSD), Discovery]

  function GroupIndex(g: Group): nat {
    match g
    case Pair(i) => Rank(i)
    case Discovery => 4
  }

  lemma GroupIndexInverse(g: Group)
    ensures GroupIndex(g) < |GROUPS| && GROUPS[GroupIndex(g)] == g
  {
  }

  function GroupOf<B>(e: Event<B>): Group {
    if e.instrument.Some? then Pair(e.instrument.value) else Discovery
  }

  // ------------------------------------------------------------------ counters

  function Count(p: PairStats, f: Field): nat {
    match f
    case Produced => p.produced
    case Acknowledged => p.acknowledged
    case Retries => p.retries
    case Dropped => p.dropped
    case Rejected => p.rejected
  }

  function Bump(p: PairStats, f: Field): PairStats {
    match f
    case Produced => p.(produced := p.produced + 1)
    case Acknowledged => p.(acknowledged := p.acknowledged + 1)
    case Retries => p.(retries := p.retries + 1)
    case Dropped => p.(dropped := p.dropped + 1)
    case Rejected => p.(rejected := p.rejected + 1)
  }

  const NO_STATS := PairStats(0, 0, 0, 0, 0)

  function EmptyStats(): Stats { Stats(NO_STATS, Everywhere(NO_STATS)) }

  ghost predicate Complete(s: Stats) {
    forall i: Instrument :: i in s.byInstrument
  }

  function Increment<B>(s: Stats, e: Event<B>, f: Field): (r: Stats)
    requires Complete(s)
    ensures Complete(r)
  {
    if e.instrument.Some? then
      var i := e.instrument.value;
      Stats(Bump(s.total, f), s.byInstrument[i := Bump(s.byInstrument[i], f)])
    else s.(total := Bump(s.total, f))
  }

  // ------------------------------------------------------- queues inside a list

  /** Ids of one group's events, in list order. */
  function GroupIds<B>(g: Group, s: seq<Event<B>>): seq<nat> {
    if s == [] then []
    else
      var e := s[|s| - 1];
      GroupIds(g, s[..|s| - 1]) + (if GroupOf(e) == g then [e.id] else [])
  }

  /** `events.find` on the group: its head. */
  function Find<B>(s: seq<Event<B>>, g: Group): Option<Event<B>> {
    if s == [] then None
    else if GroupOf(s[0]) == g then Some(s[0])
    else Find(s[1..], g)
  }

  /** Position of the first event with this id, or the length of the list. */
  function IndexOf<B>(s: seq<Event<B>>, id: nat): (k: nat)
    ensures k <= |s|
    ensures k < |s| ==> s[k].id == id
    ensures forall j | 0 <= j < k :: s[j].id != id
  {
    if s == [] then 0 else if s[0].id == id then 0 else 1 + IndexOf(s[1..], id)
  }

  function Without<B>(s: seq<Event<B>>, id: nat): seq<Event<B>> {
    if s == [] then []
    else
      var e := s[|s| - 1];
      Without(s[..|s| - 1], id) + (if e.id == id then [] else [e])
  }

  function GroupDepth<B>(s: seq<Event<B>>, g: Group): nat {
    |GroupIds(g, s)|
  }

  function GroupCapacity(maxSize: nat): nat { Max(1, maxSize / |GROUPS|) }

  // ------------------------------------------------------------ one decision

  function Due<B>(s: seq<Event<B>>, attempted: set<nat>, now: int, g: Group): bool {
    var head := Find(s, g);
    head.Some? && head.value.nextAttemptAt <= now && head.value.id !in attempted
  }

  function DueGroups<B>(s: seq<Event<B>>, attempted: set<nat>, now: int): (r: seq<bool>)
    ensures |r| == |GROUPS|
  {
    seq(|GROUPS|, k requires 0 <= k < |GROUPS| => Due(s, attempted, now, GROUPS[k]))
  }

  /** Index of the group to serve. */
  function SelectNext<B>(s: seq<Event<B>>, attempted: set<nat>, now: int, cursor: nat): (r: Option<nat>)
    requires cursor < |GROUPS|
    ensures r.Some? ==> r.value < |GROUPS| && Due(s, attempted, now, GROUPS[r.value])
  {
    RR.NextIsNearest(DueGroups(s, attempted, now), cursor, 0);
    RR.Next(DueGroups(s, attempted, now), cursor, 0)
  }

  /** Times of the group heads from group k on. */
  function HeadTimes<B>(s: seq<Event<B>>, k: nat): seq<int>
    decreases |GROUPS| - k
  {
    if k >= |GROUPS| then []
    else
      var head := Find(s, GROUPS[k]);
      (if head.Some? then [head.value.nextAttemptAt] else []) + HeadTimes(s, k + 1)
  }

  function Least(s: seq<int>): int
    requires s != []
  {
    if |s| == 1 then s[0] else Min(s[0], Least(s[1..]))
  }

  function PowerOfTwo(n: nat): nat { if n == 0 then 1 else 2 * PowerOfTwo(n - 1) }

  function Backoff(attempts: nat): nat { Min(30_000, 500 * PowerOfTwo(Min(attempts, 6))) }

  // ------------------------------------------------------------- the machine

  datatype Outcome = Acked | Refused | RetryAt(time: int)

  datatype Phase<+B> =
    | Idle
    | Loading
    | Loaded(snapshot: seq<Event<B>>)
    | InFlight(event: Event<B>)
    | Answered(event: Event<B>, outcome: Outcome)
    | Scheduling(time: int)

  /** What happened so far; no code reads it. */
  datatype History<+B> = History(
    produced: seq<Event<B>>,
    refused: seq<Event<B>>,     // dropped by enqueue
    accepted: seq<Event<B>>,
    delivered: seq<Event<B>>,   // one entry for each call of deliver
    retried: seq<Event<B>>,
    acked: seq<Event<B>>,
    rejected: seq<Event<B>>,
    removed: seq<Event<B>>,     // acknowledged and rejected events, in the order they left
    alarms: seq<int>,
    drainFrom: nat)             // length of delivered when the current drain began

  datatype World<+B> = World(
    events: seq<Event<B>>,      // durable
    stats: Stats,               // durable
    cursor: nat,
    attempted: set<nat>,
    phase: Phase<B>,
    hist: History<B>)

  datatype Step<+B> =
    | Enqueue(event: Event<B>)
    | StartDrain
    | Load
    | Decide(now: int)
    | Answer(outcome: Outcome)
    | Commit
    | Scheduled
    | Crash

  function Start<B>(): World<B> {
    World([], EmptyStats(), 0, {}, Idle, History([], [], [], [], [], [], [], [], [], 0))
  }

  ghost predicate Shaped<B>(w: World<B>) {
    Complete(w.stats) && w.cursor < |GROUPS|
  }

  function Ids<B>(s: seq<Event<B>>): set<nat> {
    set k | 0 <= k < |s| :: s[k].id
  }

  function Room<B>(maxSize: nat, s: seq<Event<B>>, e: Event<B>): bool {
    |s| < maxSize && GroupDepth(s, GroupOf(e)) < GroupCapacity(maxSize)
  }

  function DoEnqueue<B>(maxSize: nat, w: World<B>, e: Event<B>): World<B>
    requires Shaped(w)
  {
    var stats := Increment(w.stats, e, Produced);
    var hist := w.hist.(produced := w.hist.produced + [e]);
    if !Room(maxSize, w.events, e) then
      w.(stats := Increment(stats, e, Dropped), hist := hist.(refused := hist.refused + [e]))
    else
      w.(events := w.events + [e], stats := stats, hist := hist.(accepted := hist.accepted + [e]))
  }

  function DoDecide<B>(w: World<B>, s: seq<Event<B>>, now: int): World<B>
    requires Shaped(w)
  {
    if s == [] then w.(phase := Idle)
    else
      match SelectNext(s, w.attempted, now, w.cursor)
      case Some(k) =>
        var e := Find(s, GROUPS[k]).value;
        w.(cursor := (k + 1) % |GROUPS|, attempted := w.attempted + {e.id}, phase := InFlight(e),
           hist := w.hist.(delivered := w.hist.delivered + [e]))
      case None =>
        var times := HeadTimes(s, 0);
        w.(phase := Scheduling(if times == [] then now else Max(now, Least(times))))
  }

  function Retry<B>(e: Event<B>, at: int): Event<B> {
    e.(attempts := e.attempts + 1, nextAttemptAt := at)
  }

  function DoCommit<B>(w: World<B>, e: Event<B>, o: Outcome): World<B>
    requires Shaped(w)
  {
    var k := IndexOf(w.events, e.id);
    if k == |w.events| then w.(phase := Loading)
    else
      var found := w.events[k];
      match o
      case Acked =>
        w.(events := Without(w.events, e.id), stats := Increment(w.stats, found, Acknowledged),
           phase := Loading,
           hist := w.hist.(acked := w.hist.acked + [found], removed := w.hist.removed + [found]))
      case Refused =>
        w.(events := Without(w.events, e.id),
           stats := Increment(Increment(w.stats, found, Dropped), found, Rejected),
           phase := Loading,
           hist := w.hist.(rejected := w.hist.rejected + [found], removed := w.hist.removed + [found]))
      case RetryAt(at) =>
        w.(events := w.events[k := Retry(found, at)], stats := Increment(w.stats, found, Retries),
           phase := Loading, hist := w.hist.(retried := w.hist.retried + [found]))
  }

  /** One step; a step that is not possible in this state changes nothing. Event ids are
      fresh (crypto.randomUUID), so an event with a used id is never enqueued. */
  function Move<B>(maxSize: nat, w: World<B>, a: Step<B>): (r: World<B>)
    requires Shaped(w)
    ensures Shaped(r)
  {
    match a
    case Enqueue(e) => if e.id in Ids(w.hist.produced) then w else DoEnqueue(maxSize, w, e)
    case StartDrain =>
      if w.phase.Idle?
      then w.(phase := Loading, attempted := {}, hist := w.hist.(drainFrom := |w.hist.delivered|))
      else w
    case Load => if w.phase.Loading? then w.(phase := Loaded(w.events)) else w
    case Decide(now) => if w.phase.Loaded? then DoDecide(w, w.phase.snapshot, now) else w
    case Answer(o) => if w.phase.InFlight? then w.(phase := Answered(w.phase.event, o)) else w
    case Commit => if w.phase.Answered? then DoCommit(w, w.phase.event, w.phase.outcome) else w
    case Scheduled =>
      if w.phase.Scheduling?
      then w.(phase := Idle, hist := w.hist.(alarms := w.hist.alarms + [w.phase.time]))
      else w
    case Crash => w.(phase := Idle, cursor := 0, attempted := {},
                     hist := w.hist.(drainFrom := |w.hist.delivered|))
  }

  function Run<B>(maxSize: nat, w: World<B>, steps: seq<Step<B>>): (r: World<B>)
    requires Shaped(w)
    ensures Shaped(r)
    decreases |steps|
  {
    if steps == [] then w else Run(maxSize, Move(maxSize, w, steps[0]), steps[1..])
  }

  lemma {:induction false} RunConcat<B>(maxSize: nat, w: World<B>, a: seq<Step<B>>, b: seq<Step<B>>)
    requires Shaped(w)
    ensures Run(maxSize, w, a + b) == Run(maxSize, Run(maxSize, w, a), b)
    decreases |a|
  {
    if a == [] {
      assert a + b == b;
    } else {
      assert (a + b)[0] == a[0] && (a + b)[1..] == a[1..] + b;
      RunConcat(maxSize, Move(maxSize, w, a[0]), a[1..], b);
    }
  }
}

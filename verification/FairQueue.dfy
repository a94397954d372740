/** The collector's bounded per-pair FIFO queues (fair_queue.py) with any number of
    putters and getters, at the granularity of asyncio suspension points: one step is
    the code a coroutine runs between two suspensions. */
module FairQueue {
  import opened Wrappers
  import opened Instruments
  import RR = RoundRobin

  datatype Queue<+T> = Queue(
    items: map<Instrument, seq<T>>,
    unfinished: map<Instrument, int>,   // asyncio.Queue's unfinished-task counters
    available: bool,                    // the asyncio.Event
    cursor: nat)

  ghost predicate WellFormed<T>(q: Queue<T>) {
    && (forall i: Instrument :: i in q.items && i in q.unfinished)
    && q.cursor < |SUPPORTED|
  }

  function PerPair(totalCapacity: nat): nat {
    if totalCapacity / |SUPPORTED| < 1 then 1 else totalCapacity / |SUPPORTED|
  }

  function Empty<T>(): Queue<T> {
    Queue(Everywhere([]), Everywhere(0), false, 0)
  }

  function TotalDepth<T>(q: Queue<T>): nat
    requires WellFormed(q)
  {
    |q.items[EURUSD]| + |q.items[GBPUSD]| + |q.items[USDJPY]| + |q.items[AUDUSD]|
  }

  /** Which pairs, in registry order, hold an item. */
  function Ready<T>(q: Queue<T>): seq<bool>
    requires WellFormed(q)
  {
    seq(|SUPPORTED|, k requires 0 <= k < |SUPPORTED| => q.items[SUPPORTED[k]] != [])
  }

  /** A putter's segment: the item goes in and the event is set, unless the pair is full,
      in which case the putter stays suspended. */
  function PutStep<T>(perPair: nat, q: Queue<T>, i: Instrument, x: T): Queue<T>
    requires WellFormed(q)
  {
    if |q.items[i]| >= perPair then q
    else q.(items := q.items[i := q.items[i] + [x]],
            unfinished := q.unfinished[i := q.unfinished[i] + 1],
            available := true)
  }

  function TakeFrom<T>(q: Queue<T>, i: Instrument): Queue<T>
    requires WellFormed(q) && q.items[i] != []
  {
    var q1 := q.(items := q.items[i := q.items[i][1..]],
                 cursor := (Rank(i) + 1) % |SUPPORTED|);
    if TotalDepth(q1) == 0 then q1.(available := false) else q1
  }

  /** A getter's segment: take from the nearest non-empty pair, or clear the event and wait. */
  function GetStep<T>(q: Queue<T>): (Queue<T>, Option<(Instrument, T)>)
    requires WellFormed(q)
  {
    match RR.Next(Ready(q), q.cursor, 0)
    case None => (q.(available := false), None)
    case Some(k) =>
      RR.NextIsNearest(Ready(q), q.cursor, 0);
      var i := SUPPORTED[k];
      (TakeFrom(q, i), Some((i, q.items[i][0])))
  }

  /** After a scan that found nothing the total depth is zero. */
  lemma NothingReady<T>(q: Queue<T>)
    requires WellFormed(q)
    requires forall k: nat | k < |SUPPORTED| :: !Ready(q)[k]
    ensures TotalDepth(q) == 0
  {
    assert !Ready(q)[0] && !Ready(q)[1] && !Ready(q)[2] && !Ready(q)[3];
  }

  function TaskDoneStep<T>(q: Queue<T>, i: Instrument): Queue<T>
    requires WellFormed(q)
  {
    q.(unfinished := q.unfinished[i := q.unfinished[i] - 1])
  }

  /** What `join` waits for. */
  ghost predicate JoinReturns<T>(q: Queue<T>)
    requires WellFormed(q)
  {
    forall i: Instrument :: q.unfinished[i] == 0
  }

  // ---------------------------------------------------------------- the class

  class FairInstrumentQueue<T> {
    ghost const totalCapacity: nat
    const perPair: nat
    var queues: map<Instrument, seq<T>>
    var unfinished: map<Instrument, int>
    var available: bool
    var cursor: nat

    ghost function View(): Queue<T>
      reads this
    {
      Queue(queues, unfinished, available, cursor)
    }

    ghost predicate Valid()
      reads this
    {
      WellFormed(View()) && totalCapacity >= 4 && perPair == totalCapacity / 4
    }

    constructor (totalCapacity: nat)
      requires totalCapacity >= |SUPPORTED|
      ensures Valid() && View() == Empty<T>() && this.totalCapacity == totalCapacity
    {
      this.totalCapacity := totalCapacity;
      perPair := PerPair(totalCapacity);
      queues := Everywhere([]);
      unfinished := Everywhere(0);
      available := false;
      cursor := 0;
    }

    /** Returns whether the putter got past `queue.put`. */
    method Put(i: Instrument, x: T) returns (done: bool)
      requires Valid()
      modifies this
      ensures Valid() && View() == PutStep(perPair, old(View()), i, x)
      ensures done <==> |old(queues)[i]| < totalCapacity / 4
      ensures queues == (if done then old(queues)[i := old(queues)[i] + [x]] else old(queues))
    {
      if |queues[i]| >= perPair {
        return false;
      }
      queues := queues[i := queues[i] + [x]];
      unfinished := unfinished[i := unfinished[i] + 1];
      available := true;
      return true;
    }

    /** get_nowait on a pair that holds an item, and the bookkeeping after it. */
    method Take(i: Instrument) returns (item: T)
      requires Valid() && queues[i] != []
      modifies this
      ensures Valid() && View() == TakeFrom(old(View()), i) && item == old(queues)[i][0]
    {
      RankInverse(i);
      item := queues[i][0];
      queues := queues[i := queues[i][1..]];
      cursor := (Rank(i) + 1) % |SUPPORTED|;
      if Depths() == 0 {
        available := false;
      }
    }

    /** One segment of `get`: Some is what it returns, None means that it suspended in
        `available.wait()`. The branch that would set the event again and rescan is dead. */
    method Get() returns (r: Option<(Instrument, T)>)
      requires Valid()
      modifies this
      ensures Valid() && View() == GetStep(old(View())).0 && r == GetStep(old(View())).1
    {
      var offset := 0;
      while offset < |SUPPORTED|
        invariant offset <= |SUPPORTED|
        invariant Valid() && View() == old(View())
        invariant RR.Next(Ready(View()), cursor, 0) == RR.Next(Ready(View()), cursor, offset)
      {
        var index := (cursor + offset) % |SUPPORTED|;
        var i := SUPPORTED[index];
        if queues[i] != [] {
          var item := Take(i);
          return Some((i, item));
        }
        offset := offset + 1;
      }
      available := false;
      RR.NextIsNearest(Ready(View()), cursor, 0);
      var left := Depths();
      if left > 0 {
        NothingReady(View());
        assert false;
      }
      return None;
    }

    method TaskDone(i: Instrument)
      requires Valid()
      modifies this
      ensures Valid() && View() == TaskDoneStep(old(View()), i)
    {
      unfinished := unfinished[i := unfinished[i] - 1];
    }

    function Depth(i: Instrument): nat
      requires Valid()
      reads this
    {
      |queues[i]|
    }

    function Depths(): (n: nat)
      requires Valid()
      reads this
      ensures n == TotalDepth(View())
    {
      Depth(EURUSD) + Depth(GBPUSD) + Depth(USDJPY) + Depth(AUDUSD)
    }
  }

  // ------------------------------------------------------- runs and their laws

  /** The queue with its surroundings: getters suspended in `wait()` that no `set()` has
      woken yet, workers between `get` and `task_done`, and what went in and out so far. */
  datatype World<+T> = World(
    q: Queue<T>,
    blocked: set<nat>,
    inFlight: map<Instrument, nat>,
    put: map<Instrument, seq<T>>,
    taken: map<Instrument, seq<T>>)

  datatype Step<+T> = Put(i: Instrument, x: T) | Get(getter: nat) | TaskDone(pair: Instrument)

  function Start<T>(): World<T> {
    World(Empty(), {}, Everywhere(0), Everywhere([]), Everywhere([]))
  }

  ghost predicate Shaped<T>(w: World<T>) {
    && WellFormed(w.q)
    && forall i: Instrument :: i in w.inFlight && i in w.put && i in w.taken
  }

  /** One segment of some coroutine. A getter still blocked in `wait()` cannot move, and a
      worker calls `task_done` once for an item it took; such moves change nothing here. */
  function Move<T>(perPair: nat, w: World<T>, a: Step<T>): (r: World<T>)
    requires Shaped(w)
    ensures Shaped(r)
  {
    match a
    case Put(i, x) =>
      if |w.q.items[i]| >= perPair then w
      else w.(q := PutStep(perPair, w.q, i, x), blocked := {}, put := w.put[i := w.put[i] + [x]])
    case Get(g) =>
      if g in w.blocked then w
      else
        var (q1, r) := GetStep(w.q);
        (match r
         case None => w.(q := q1, blocked := w.blocked + {g})
         case Some(p) =>
           w.(q := q1,
              inFlight := w.inFlight[p.0 := w.inFlight[p.0] + 1],
              taken := w.taken[p.0 := w.taken[p.0] + [p.1]]))
    case TaskDone(i) =>
      if w.inFlight[i] == 0 then w
      else w.(q := TaskDoneStep(w.q, i), inFlight := w.inFlight[i := w.inFlight[i] - 1])
  }

  function Run<T>(perPair: nat, w: World<T>, steps: seq<Step<T>>): (r: World<T>)
    requires Shaped(w)
    ensures Shaped(r)
    decreases |steps|
  {
    if steps == [] then w else Run(perPair, Move(perPair, w, steps[0]), steps[1..])
  }

  /** Holds at every suspension point. */
  ghost predicate Good<T>(perPair: nat, w: World<T>)
    requires Shaped(w)
  {
    && (w.q.available <==> exists i: Instrument :: w.q.items[i] != [])
    && (w.blocked != {} ==> !w.q.available)
    && forall i: Instrument :: PairGood(perPair, w, i)
  }

  ghost predicate PairGood<T>(perPair: nat, w: World<T>, i: Instrument)
    requires Shaped(w)
  {
    && w.put[i] == w.taken[i] + w.q.items[i]
    && |w.q.items[i]| <= perPair
    && w.q.unfinished[i] == |w.q.items[i]| + w.inFlight[i]
  }

  /** `get` suspends exactly when nothing is queued, and otherwise takes some pair's head. */
  lemma GetTakesAHead<T>(q: Queue<T>)
    requires WellFormed(q)
    ensures GetStep(q).1 == None ==> forall i: Instrument :: q.items[i] == []
    ensures GetStep(q).1.Some? ==>
              var (i, x) := GetStep(q).1.value;
              q.items[i] != [] && x == q.items[i][0] && GetStep(q).0 == TakeFrom(q, i)
  {
    RR.NextIsNearest(Ready(q), q.cursor, 0);
    forall i: Instrument
      ensures q.items[i] != [] ==> Ready(q)[Rank(i)]
    {
      RankInverse(i);
    }
  }

  /** ... and that pair is the nearest non-empty one after the cursor. */
  lemma GetTakesNearest<T>(q: Queue<T>, i: Instrument)
    requires WellFormed(q) && q.items[i] != []
    ensures GetStep(q).1.Some?
    ensures RR.Distance(4, q.cursor, Rank(GetStep(q).1.value.0)) <= RR.Distance(4, q.cursor, Rank(i))
  {
    RR.NextIsNearest(Ready(q), q.cursor, 0);
    RankInverse(i);
    assert Ready(q)[Rank(i)];
  }

  lemma TotalIsZero<T>(q: Queue<T>)
    requires WellFormed(q)
    ensures TotalDepth(q) == 0 <==> forall i: Instrument :: q.items[i] == []
  {
    forall i: Instrument
      ensures TotalDepth(q) == 0 ==> q.items[i] == []
    {
      match i case EURUSD => case GBPUSD => case USDJPY => case AUDUSD =>
    }
  }

  lemma TakeKeepsPair<T>(perPair: nat, w: World<T>, g: nat, i: Instrument)
    requires Shaped(w) && PairGood(perPair, w, i) && g !in w.blocked && GetStep(w.q).1.Some?
    ensures PairGood(perPair, Move(perPair, w, Get(g)), i)
  {
    GetTakesAHead(w.q);
    var (j, x) := GetStep(w.q).1.value;
    var w1 := Move(perPair, w, Get(g));
    TakeShows(perPair, w, g, j, x);
    if i == j {
      assert w.q.items[i] == [x] + w1.q.items[i];
      assert w.taken[i] + [x] + w1.q.items[i] == w.taken[i] + w.q.items[i];
    }
  }

  lemma TakeShows<T>(perPair: nat, w: World<T>, g: nat, j: Instrument, x: T)
    requires Shaped(w) && g !in w.blocked && GetStep(w.q).1 == Some((j, x))
    requires w.q.items[j] != [] && GetStep(w.q).0 == TakeFrom(w.q, j)
    ensures var w1 := Move(perPair, w, Get(g));
            && w1.q.items == w.q.items[j := w.q.items[j][1..]] && w1.q.unfinished == w.q.unfinished
            && w1.put == w.put && w1.taken == w.taken[j := w.taken[j] + [x]]
            && w1.inFlight == w.inFlight[j := w.inFlight[j] + 1]
  {
  }

  lemma GetKeepsPair<T>(perPair: nat, w: World<T>, g: nat, i: Instrument)
    requires Shaped(w) && PairGood(perPair, w, i)
    ensures PairGood(perPair, Move(perPair, w, Get(g)), i)
  {
    if g !in w.blocked && GetStep(w.q).1.Some? {
      TakeKeepsPair(perPair, w, g, i);
    }
  }

  lemma GetKeepsEvent<T>(perPair: nat, w: World<T>, g: nat)
    requires Shaped(w)
    requires w.q.available <==> exists i: Instrument :: w.q.items[i] != []
    ensures var q1 := Move(perPair, w, Get(g)).q;
            q1.available <==> exists i: Instrument :: q1.items[i] != []
  {
    GetTakesAHead(w.q);
    TotalIsZero(Move(perPair, w, Get(g)).q);
  }

  lemma MoveKeepsGood<T>(perPair: nat, w: World<T>, a: Step<T>)
    requires Shaped(w) && Good(perPair, w)
    ensures Good(perPair, Move(perPair, w, a))
  {
    var w1 := Move(perPair, w, a);
    forall i: Instrument
      ensures PairGood(perPair, w1, i)
    {
      assert PairGood(perPair, w, i);
      if a.Get? {
        GetKeepsPair(perPair, w, a.getter, i);
      } else if a.Put? && a.i == i && |w.q.items[i]| < perPair {
        assert w1.q.items[i] == w.q.items[i] + [a.x];
      }
    }
    match a {
      case Put(i, x) =>
        assert |w.q.items[i]| < perPair ==> w1.q.items[i] != [];
      case Get(g) =>
        GetKeepsEvent(perPair, w, g);
        GetTakesAHead(w.q);
      case TaskDone(i) =>
    }
  }

  /** Wake-up exactness and FIFO refinement over every run with any number of putters,
      getters and workers. */
  lemma {:induction false} RunKeepsGood<T>(perPair: nat, w: World<T>, steps: seq<Step<T>>)
    requires Shaped(w) && Good(perPair, w)
    ensures Good(perPair, Run(perPair, w, steps))
    decreases |steps|
  {
    if steps != [] {
      MoveKeepsGood(perPair, w, steps[0]);
      RunKeepsGood(perPair, Move(perPair, w, steps[0]), steps[1..]);
    }
  }

  /** No lost wake-up: a getter is left waiting only when there is nothing to take. */
  lemma NoLostWakeUp<T>(totalCapacity: nat, steps: seq<Step<T>>)
    ensures var w := Run(PerPair(totalCapacity), Start<T>(), steps);
            && (w.q.available <==> exists i: Instrument :: w.q.items[i] != [])
            && (w.blocked != {} ==> forall i: Instrument :: w.q.items[i] == [])
  {
    RunKeepsGood(PerPair(totalCapacity), Start<T>(), steps);
  }

  /** Per pair the items taken are a prefix of the items put, in order; the depths respect
      the reserved share and the total. */
  lemma QueuesAreBoundedFifos<T>(totalCapacity: nat, steps: seq<Step<T>>)
    requires totalCapacity >= |SUPPORTED|
    ensures var w := Run(PerPair(totalCapacity), Start<T>(), steps);
            && TotalDepth(w.q) <= totalCapacity
            && forall i: Instrument ::
                 && w.taken[i] <= w.put[i]
                 && w.put[i][|w.taken[i]|..] == w.q.items[i]
                 && |w.q.items[i]| <= totalCapacity / |SUPPORTED|
  {
    RunKeepsGood(PerPair(totalCapacity), Start<T>(), steps);
    var w := Run(PerPair(totalCapacity), Start<T>(), steps);
    forall i: Instrument
      ensures w.taken[i] <= w.put[i] && w.put[i][|w.taken[i]|..] == w.q.items[i]
      ensures |w.q.items[i]| <= totalCapacity / |SUPPORTED|
    {
      assert PairGood(PerPair(totalCapacity), w, i);
    }
  }

  /** A put succeeds exactly when fewer than a quarter of the places hold items of its pair, and
      wakes every waiting getter then; otherwise nothing changes. */
  lemma PutSucceedsExactlyWhen<T>(totalCapacity: nat, steps: seq<Step<T>>, i: Instrument, x: T)
    requires totalCapacity >= 4
    ensures var w := Run(PerPair(totalCapacity), Start<T>(), steps);
            var w1 := Move(PerPair(totalCapacity), w, Put(i, x));
            && (|w.q.items[i]| < totalCapacity / 4 ==>
                  && w1.put == w.put[i := w.put[i] + [x]] && w1.taken == w.taken && w1.blocked == {}
                  && w1.q.items == w.q.items[i := w.q.items[i] + [x]])
            && (|w.q.items[i]| >= totalCapacity / 4 ==> w1 == w && |w.q.items[i]| == totalCapacity / 4)
  {
    RunKeepsGood(PerPair(totalCapacity), Start<T>(), steps);
    assert PairGood(PerPair(totalCapacity), Run(PerPair(totalCapacity), Start<T>(), steps), i);
  }

  /** `join` returns exactly when every item put was taken and finished. */
  lemma JoinMeansAllWorkDone<T>(totalCapacity: nat, steps: seq<Step<T>>)
    ensures var w := Run(PerPair(totalCapacity), Start<T>(), steps);
            JoinReturns(w.q) <==> forall i: Instrument :: w.taken[i] == w.put[i] && w.inFlight[i] == 0
  {
    RunKeepsGood(PerPair(totalCapacity), Start<T>(), steps);
    var w := Run(PerPair(totalCapacity), Start<T>(), steps);
    forall i: Instrument
      ensures w.q.unfinished[i] == 0 <==> w.taken[i] == w.put[i] && w.inFlight[i] == 0
    {
      assert PairGood(PerPair(totalCapacity), w, i);
      assert |w.put[i]| == |w.taken[i]| + |w.q.items[i]|;
    }
  }

  // ------------------------------------------------------------------ fairness

  function Gets<T>(steps: seq<Step<T>>): nat {
    if steps == [] then 0 else (if steps[0].Get? then 1 else 0) + Gets(steps[1..])
  }

  lemma MoveOnlyTakes<T>(perPair: nat, w: World<T>, a: Step<T>, i: Instrument)
    requires Shaped(w)
    ensures w.taken[i] <= Move(perPair, w, a).taken[i]
  {
  }

  lemma {:induction false} TakenOnlyGrows<T>(perPair: nat, w: World<T>, steps: seq<Step<T>>, i: Instrument)
    requires Shaped(w)
    ensures w.taken[i] <= Run(perPair, w, steps).taken[i]
    decreases |steps|
  {
    if steps != [] {
      var w1 := Move(perPair, w, steps[0]);
      MoveOnlyTakes(perPair, w, steps[0], i);
      TakenOnlyGrows(perPair, w1, steps[1..], i);
      assert Run(perPair, w, steps) == Run(perPair, w1, steps[1..]);
    }
  }

  /** One get serves pair i, or serves a nearer pair and leaves i's head in place, closer. */
  lemma GetServesOrComesCloser<T>(perPair: nat, w: World<T>, g: nat, i: Instrument)
    requires Shaped(w) && g !in w.blocked && w.q.items[i] != []
    ensures var w1 := Move(perPair, w, Get(g));
            || w1.taken[i] == w.taken[i] + [w.q.items[i][0]]
            || (&& w1.taken[i] == w.taken[i] && w1.q.items[i] == w.q.items[i]
                && w1.q.cursor < 4
                && RR.Distance(4, w1.q.cursor, Rank(i)) < RR.Distance(4, w.q.cursor, Rank(i)))
  {
    GetTakesAHead(w.q);
    GetTakesNearest(w.q, i);
    var (j, x) := GetStep(w.q).1.value;
    if j != i {
      RankInverse(i);
      RankInverse(j);
      RR.ServingOthersComesCloser(4, w.q.cursor, Rank(j), Rank(i));
    }
  }

  /** One step serves pair i's head, or leaves it in place, and a get brings it closer. */
  lemma MoveServesOrComesCloser<T>(perPair: nat, w: World<T>, a: Step<T>, i: Instrument)
    requires Shaped(w) && Good(perPair, w) && w.q.items[i] != []
    ensures var w1 := Move(perPair, w, a);
            || w1.taken[i] == w.taken[i] + [w.q.items[i][0]]
            || (&& w1.taken[i] == w.taken[i] && w1.q.items[i] != [] && w1.q.items[i][0] == w.q.items[i][0]
                && w1.q.cursor < 4
                && RR.Distance(4, w1.q.cursor, Rank(i)) + (if a.Get? then 1 else 0)
                   <= RR.Distance(4, w.q.cursor, Rank(i)))
  {
    if a.Get? {
      assert a.getter !in w.blocked;
      GetServesOrComesCloser(perPair, w, a.getter, i);
    }
  }

  lemma {:induction false} ServedByDistance<T>(perPair: nat, w: World<T>, steps: seq<Step<T>>, i: Instrument)
    requires Shaped(w) && Good(perPair, w) && w.q.items[i] != []
    requires Gets(steps) > RR.Distance(4, w.q.cursor, Rank(i))
    ensures w.taken[i] + [w.q.items[i][0]] <= Run(perPair, w, steps).taken[i]
    decreases |steps|
  {
    var w1 := Move(perPair, w, steps[0]);
    MoveKeepsGood(perPair, w, steps[0]);
    MoveServesOrComesCloser(perPair, w, steps[0], i);
    if w1.taken[i] == w.taken[i] + [w.q.items[i][0]] {
      TakenOnlyGrows(perPair, w1, steps[1..], i);
    } else {
      ServedByDistance(perPair, w1, steps[1..], i);
    }
  }

  /** In every run, once a pair holds an item, its head is among the next four items taken,
      whatever is put, finished or waited for in between. */
  lemma ServedWithinFourGets<T>(
      totalCapacity: nat, before: seq<Step<T>>, after: seq<Step<T>>, i: Instrument)
    requires var w := Run(PerPair(totalCapacity), Start<T>(), before); w.q.items[i] != []
    requires Gets(after) >= 4
    ensures var w := Run(PerPair(totalCapacity), Start<T>(), before);
            w.taken[i] + [w.q.items[i][0]] <= Run(PerPair(totalCapacity), w, after).taken[i]
  {
    var perPair := PerPair(totalCapacity);
    RunKeepsGood(perPair, Start<T>(), before);
    var w := Run(perPair, Start<T>(), before);
    assert RR.Distance(4, w.q.cursor, Rank(i)) < 4;
    ServedByDistance(perPair, w, after, i);
  }
}

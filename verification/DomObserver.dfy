/** The per-pair acquire / emit / stale machine of the visible-DOM observer (dom-observer.ts). */
module DomObserver {
  import opened Wrappers
  import opened Instruments
  import opened DomScan
  import A = AdapterModel

  datatype Status = FOUND | READY | MISSING | AMBIGUOUS | STALE

  /** One pair: its target, the key of its last quote, its status and last observation time. */
  datatype Pair = Pair(target: Option<Target>, key: Option<string>, status: Status, lastAt: Option<int>)

  /** What happened to a pair: a quote was handed on, or what it was read from was lost or replaced. */
  datatype Note =
    | Emitted(instrument: Instrument, quote: Quote, at: int)
    | Lost(instrument: Instrument)
    | Replaced(instrument: Instrument)

  /** `watching`: the mutation observers are connected; `due`: a reacquisition is scheduled. */
  datatype World = World(pairs: map<Instrument, Pair>, watching: bool, due: bool, log: seq<Note>)

  predicate Shaped(w: World) { forall i: Instrument :: i in w.pairs }

  const Initial: World := World(Everywhere(Pair(None, None, MISSING, None)), false, false, [])

  // ---------------------------------------------------------------- one pair

  datatype Outcome = Outcome(pair: Pair, notes: seq<Note>, reacquire: bool)

  type Outcomes = m: map<Instrument, Outcome> | forall i: Instrument :: i in m
    witness Everywhere(Outcome(Pair(None, None, MISSING, None), [], false))

  function ReadQuote(p: Page, i: Instrument, t: Target): Option<Quote> {
    if !Connected(p, t.row) || !Connected(p, t.bidCell) || !Connected(p, t.askCell) || !Visible(p, t.row) then None
    else QuoteFromCells(p, i, t.bidCell, t.askCell)
  }

  /** What a pair's target shows. */
  function Shown(p: Page, i: Instrument, x: Pair): Option<Quote> {
    if x.target == None then None else ReadQuote(p, i, x.target.value)
  }

  /** emitCurrent for one pair. */
  function Emit(shown: Option<Quote>, now: int, i: Instrument, x: Pair): Outcome {
    if x.target == None then Outcome(x, [], false)
    else if shown == None then Outcome(x.(key := None, status := MISSING), [Lost(i)], true)
    else if x.key == Some(KeyOf(shown.value)) then Outcome(x, [], false)
    else
      Outcome(Pair(x.target, Some(KeyOf(shown.value)), READY, Some(now)), [Emitted(i, shown.value, now)], false)
  }

  predicate KeepsTarget(x: Pair, t: Target) {
    x.target == Some(t) && !Incomplete(x.status)
  }

  /** acquire for one pair, before it emits. */
  function Retarget(d: Discovery, i: Instrument, x: Pair): Outcome {
    match d
    case Missing => Outcome(Pair(None, None, MISSING, x.lastAt), [Lost(i)], false)
    case Ambiguous => Outcome(Pair(None, None, AMBIGUOUS, x.lastAt), [Lost(i)], false)
    case Found(t) =>
      if KeepsTarget(x, t) then Outcome(x.(status := FOUND), [], false)
      else Outcome(Pair(Some(t), None, FOUND, x.lastAt), [Replaced(i)], false)
  }

  function Age(now: int, staleAfter: nat, x: Pair): Pair {
    if x.status == READY && x.lastAt.Some? && now - x.lastAt.value > staleAfter then x.(status := STALE) else x
  }

  // --------------------------------------------------------------- all pairs

  /** The notes of the first k pairs, in the order the pairs are visited. */
  function NotesUpTo(outs: Outcomes, k: nat): seq<Note>
    requires k <= |SUPPORTED|
  {
    if k == 0 then [] else NotesUpTo(outs, k - 1) + outs[SUPPORTED[k - 1]].notes
  }

  function Apply(w: World, outs: Outcomes): World {
    w.(
      pairs := map i: Instrument | i in outs :: outs[i].pair,
      due := w.due || (exists i: Instrument :: outs[i].reacquire),
      log := w.log + NotesUpTo(outs, |SUPPORTED|))
  }

  function Emissions(p: Page, now: int, w: World): Outcomes
    requires Shaped(w)
  {
    map i: Instrument | i in w.pairs :: Emit(Shown(p, i, w.pairs[i]), now, i, w.pairs[i])
  }

  function EmitCurrent(p: Page, now: int, w: World): World
    requires Shaped(w)
  {
    Apply(w, Emissions(p, now, w))
  }

  type Discoveries = m: map<Instrument, Discovery> | forall i: Instrument :: i in m witness Everywhere(Missing)

  /** What the scan reports, pair for pair. */
  function Discover(p: Page): (found: Discoveries)
    ensures forall i: Instrument :: found[i] == Discovered(p, i)
  {
    var none := Everywhere(Missing);
    map i: Instrument | i in none :: Discovered(p, i)
  }

  function Retargets(found: Discoveries, w: World): Outcomes
    requires Shaped(w)
  {
    map i: Instrument | i in w.pairs :: Retarget(found[i], i, w.pairs[i])
  }

  function Acquire(p: Page, now: int, w: World): World
    requires Shaped(w)
  {
    EmitCurrent(p, now, Apply(w.(watching := true), Retargets(Discover(p), w)))
  }

  predicate Removed(p: Page, t: Target) { !Connected(p, t.row) || !Connected(p, t.table) }

  predicate Incomplete(s: Status) { s == MISSING || s == AMBIGUOUS }

  predicate NeedsAcquire(p: Page, w: World)
    requires Shaped(w)
  {
    || (exists i: Instrument :: w.pairs[i].target.Some? && Removed(p, w.pairs[i].target.value))
    || (exists i: Instrument :: Incomplete(w.pairs[i].status))
  }

  function PageMutated(p: Page, w: World): World
    requires Shaped(w)
  {
    if w.watching && NeedsAcquire(p, w) then w.(due := true) else w
  }

  function TimerFired(p: Page, now: int, w: World): World
    requires Shaped(w)
  {
    if w.due then Acquire(p, now, w.(due := false)) else w
  }

  function Marked(staleAfter: nat, now: int, w: World): World {
    w.(pairs := map i: Instrument | i in w.pairs :: Age(now, staleAfter, w.pairs[i]))
  }

  function Stopped(w: World): World {
    World(map i: Instrument | i in w.pairs :: w.pairs[i].(target := None), false, false, w.log)
  }

  datatype Step =
    | Start(page: Page, now: int)
    | TargetMutation(page: Page, now: int)
    | PageMutation(page: Page)
    | AcquireTimer(page: Page, now: int)
    | StaleTimer(now: int)
    | Stop

  function Move(staleAfter: nat, s: Step, w: World): (v: World)
    requires Shaped(w)
    ensures Shaped(v)
  {
    match s
    case Start(p, now) => Acquire(p, now, w)
    case TargetMutation(p, now) => if w.watching then EmitCurrent(p, now, w) else w
    case PageMutation(p) => PageMutated(p, w)
    case AcquireTimer(p, now) => TimerFired(p, now, w)
    case StaleTimer(now) => Marked(staleAfter, now, w)
    case Stop => Stopped(w)
  }

  function Run(staleAfter: nat, steps: seq<Step>): (w: World)
    ensures Shaped(w)
  {
    if steps == [] then Initial
    else Move(staleAfter, steps[|steps| - 1], Run(staleAfter, steps[..|steps| - 1]))
  }

  // ------------------------------------------------------------ one pair's log

  function LogOf(log: seq<Note>, i: Instrument): seq<Note> {
    if log == [] then []
    else
      LogOf(log[..|log| - 1], i) + (if log[|log| - 1].instrument == i then [log[|log| - 1]] else [])
  }

  lemma {:induction false} LogOfConcat(a: seq<Note>, b: seq<Note>, i: Instrument)
    ensures LogOf(a + b, i) == LogOf(a, i) + LogOf(b, i)
  {
    if b == [] {
      assert a + b == a;
    } else {
      assert (a + b)[..|a + b| - 1] == a + b[..|b| - 1];
      LogOfConcat(a, b[..|b| - 1], i);
    }
  }

  predicate Tagged(notes: seq<Note>, i: Instrument) {
    notes == [] || (|notes| == 1 && notes[0].instrument == i)
  }

  lemma LogOfTagged(notes: seq<Note>, i: Instrument, j: Instrument)
    requires Tagged(notes, j)
    ensures LogOf(notes, i) == if i == j then notes else []
  {
    if notes != [] {
      assert notes[..0] == [];
    }
  }

  ghost predicate AllTagged(outs: Outcomes) {
    forall i: Instrument :: Tagged(outs[i].notes, i)
  }

  lemma RankOf(k: nat, i: Instrument)
    requires k < |SUPPORTED|
    ensures SUPPORTED[k] == i <==> Rank(i) == k
  {
  }

  lemma LogOfStep(before: seq<Note>, now: seq<Note>, i: Instrument, j: Instrument)
    requires Tagged(now, j)
    ensures i == j ==> LogOf(before + now, i) == LogOf(before, i) + now
    ensures i != j ==> LogOf(before + now, i) == LogOf(before, i)
  {
    LogOfTagged(now, i, j);
    LogOfConcat(before, now, i);
  }

  lemma NotesOfNext(outs: Outcomes, k: nat, i: Instrument)
    requires k < |SUPPORTED| && Tagged(outs[SUPPORTED[k]].notes, SUPPORTED[k])
    ensures Rank(i) == k ==> LogOf(NotesUpTo(outs, k + 1), i) == LogOf(NotesUpTo(outs, k), i) + outs[i].notes
    ensures Rank(i) != k ==> LogOf(NotesUpTo(outs, k + 1), i) == LogOf(NotesUpTo(outs, k), i)
  {
    var j := SUPPORTED[k];
    RankOf(k, i);
    LogOfStep(NotesUpTo(outs, k), outs[j].notes, i, j);
  }

  lemma {:induction false} NotesOf(outs: Outcomes, k: nat, i: Instrument)
    requires k <= |SUPPORTED| && AllTagged(outs)
    ensures Rank(i) < k ==> LogOf(NotesUpTo(outs, k), i) == outs[i].notes
    ensures k <= Rank(i) ==> LogOf(NotesUpTo(outs, k), i) == []
  {
    if k > 0 {
      var before := k - 1;
      NotesOf(outs, before, i);
      assert Tagged(outs[SUPPORTED[before]].notes, SUPPORTED[before]);
      NotesOfNext(outs, before, i);
      if Rank(i) == before {
        assert LogOf(NotesUpTo(outs, before), i) == [];
        assert LogOf(NotesUpTo(outs, k), i) == [] + outs[i].notes;
      }
    }
  }

  lemma ApplyIsLocal(w: World, outs: Outcomes, i: Instrument)
    requires AllTagged(outs)
    ensures Apply(w, outs).pairs[i] == outs[i].pair
    ensures LogOf(Apply(w, outs).log, i) == LogOf(w.log, i) + outs[i].notes
    ensures w.due || outs[i].reacquire ==> Apply(w, outs).due
  {
    LogOfConcat(w.log, NotesUpTo(outs, |SUPPORTED|), i);
    NotesOf(outs, |SUPPORTED|, i);
    RankInverse(i);
  }

  // --------------------------------------------------------------- invariant

  predicate Live(s: Status) { s == FOUND || s == READY || s == STALE }

  function LastEmission(log: seq<Note>): Option<int> {
    if log == [] then None
    else if log[|log| - 1].Emitted? then Some(log[|log| - 1].at)
    else LastEmission(log[..|log| - 1])
  }

  function LastQuote(log: seq<Note>): Option<Quote> {
    if log != [] && log[|log| - 1].Emitted? then Some(log[|log| - 1].quote) else None
  }

  ghost predicate Readable(q: Quote) { ':' !in q.bid }

  /** A quote directly after a quote is a different one. */
  ghost predicate NoEcho(log: seq<Note>) {
    && (forall k | 0 <= k < |log| && log[k].Emitted? :: Readable(log[k].quote))
    && forall j, k | 0 <= j < k < |log| && k == j + 1 && log[j].Emitted? && log[k].Emitted? ::
         log[j].quote != log[k].quote
  }

  /** How a pair's state follows from its own log. */
  ghost predicate Explained(x: Pair, log: seq<Note>) {
    && NoEcho(log)
    && x.lastAt == LastEmission(log)
    && (x.key.Some? <==> LastQuote(log).Some?)
    && (x.key.Some? ==> x.key.value == KeyOf(LastQuote(log).value))
    && (x.key.None? ==> log == [] || log[|log| - 1].Lost? || log[|log| - 1].Replaced?)
  }

  ghost predicate Settled(w: World, i: Instrument)
    requires Shaped(w)
  {
    Explained(w.pairs[i], LogOf(w.log, i)) && (w.pairs[i].key.Some? <==> Live(w.pairs[i].status))
  }

  ghost predicate GoodPair(x: Pair, log: seq<Note>, watching: bool, due: bool) {
    && Explained(x, log)
    && (x.key.Some? <==> Live(x.status))
    && (x.key.None? ==> log == [] || log[|log| - 1].Lost?)
    && (x.target.Some? && x.status == MISSING ==> due)
    && (x.status == AMBIGUOUS ==> x.target.None?)
    && (watching && Live(x.status) ==> x.target.Some?)
    && (!watching ==> x.target.None?)
  }

  ghost predicate GoodAt(w: World, i: Instrument)
    requires Shaped(w)
  {
    GoodPair(w.pairs[i], LogOf(w.log, i), w.watching, w.due)
  }

  ghost predicate Good(w: World) {
    Shaped(w) && forall i: Instrument :: GoodAt(w, i)
  }

  lemma ShownIsReadable(p: Page, i: Instrument, x: Pair)
    ensures Shown(p, i, x).Some? ==> Readable(Shown(p, i, x).value)
  {
    if Shown(p, i, x).Some? {
      PriceHasNoColon(Shown(p, i, x).value.bid, SpecOf(i).decimalsMin, SpecOf(i).decimalsMax);
    }
  }

  lemma LogGrows(log: seq<Note>, n: Note)
    requires NoEcho(log)
    requires n.Emitted? ==> Readable(n.quote) && LastQuote(log) != Some(n.quote)
    ensures NoEcho(log + [n])
    ensures LastEmission(log + [n]) == if n.Emitted? then Some(n.at) else LastEmission(log)
    ensures LastQuote(log + [n]) == if n.Emitted? then Some(n.quote) else None
  {
    assert (log + [n])[..|log|] == log;
  }

  /** Emission keeps a pair explained; afterwards a targeted pair's last log entry is the
      displayed quote, or its loss with a reacquisition asked for. */
  lemma EmitExplained(shown: Option<Quote>, now: int, i: Instrument, x: Pair, log: seq<Note>)
    requires Explained(x, log) && (shown.Some? ==> Readable(shown.value))
    ensures var o := Emit(shown, now, i, x);
            && Explained(o.pair, log + o.notes)
            && o.pair.target == x.target
            && (x.target.Some? ==>
                  && LastQuote(log + o.notes) == shown
                  && o.reacquire == (shown == None)
                  && (shown == None ==> o.pair.status == MISSING && (log + o.notes)[|log|].Lost?)
                  && (shown != None ==> o.pair.status == if o.notes == [] then x.status else READY))
  {
    var o := Emit(shown, now, i, x);
    if o.notes == [] {
      assert log + o.notes == log;
      if x.target.Some? {
        assert log[|log| - 1].Emitted? && Readable(log[|log| - 1].quote);
        KeysIdentifyQuotes(shown.value, LastQuote(log).value);
      }
    } else {
      assert log + o.notes == log + [o.notes[0]];
      LogGrows(log, o.notes[0]);
    }
  }

  lemma EmissionsTagged(p: Page, now: int, w: World)
    requires Shaped(w)
    ensures AllTagged(Emissions(p, now, w))
  {
    forall i: Instrument ensures Tagged(Emissions(p, now, w)[i].notes, i) {
      EmitTagged(Shown(p, i, w.pairs[i]), now, i, w.pairs[i]);
    }
  }

  lemma EmitTagged(shown: Option<Quote>, now: int, i: Instrument, x: Pair)
    ensures Tagged(Emit(shown, now, i, x).notes, i)
  {
  }

  lemma RetargetsTagged(found: Discoveries, w: World)
    requires Shaped(w)
    ensures AllTagged(Retargets(found, w))
  {
    forall i: Instrument ensures Tagged(Retargets(found, w)[i].notes, i) {
      RetargetTagged(found[i], i, w.pairs[i]);
    }
  }

  lemma RetargetTagged(d: Discovery, i: Instrument, x: Pair)
    ensures Tagged(Retarget(d, i, x).notes, i)
  {
  }

  // ------------------------------------------------------------- every step

  /** What is read of a target: its row and both cells are visible, and the cells hold a quote. */
  lemma TargetReadExactlyWhen(p: Page, i: Instrument, t: Target, q: Quote)
    ensures ReadQuote(p, i, t) == Some(q) <==>
              && t.row in p.elements && p.elements[t.row].visible
              && t.bidCell in p.elements && p.elements[t.bidCell].visible
              && t.askCell in p.elements && p.elements[t.askCell].visible
              && QuoteFromCells(p, i, t.bidCell, t.askCell) == Some(q)
  {
    ReadExactlyWhen(p, i, t.bidCell, t.askCell, q);
  }

  /** An emission leaves a reacquisition scheduled exactly when one was, or a target could not be read. */
  lemma EmissionSchedulesExactlyWhen(p: Page, now: int, w: World)
    requires Shaped(w)
    ensures EmitCurrent(p, now, w).due <==>
              w.due || exists i: Instrument :: w.pairs[i].target.Some? && ReadQuote(p, i, w.pairs[i].target.value) == None
  {
    var outs := Emissions(p, now, w);
    if i: Instrument :| w.pairs[i].target.Some? && ReadQuote(p, i, w.pairs[i].target.value) == None {
      assert outs[i].reacquire;
    }
    if i: Instrument :| outs[i].reacquire {
      assert w.pairs[i].target.Some? && ReadQuote(p, i, w.pairs[i].target.value) == None;
    }
  }

  /** What an emission does to one pair. */
  lemma EmitAt(p: Page, now: int, w: World, i: Instrument)
    requires Shaped(w)
    ensures var v, o := EmitCurrent(p, now, w), Emit(Shown(p, i, w.pairs[i]), now, i, w.pairs[i]);
            && v.watching == w.watching
            && v.pairs[i] == o.pair
            && LogOf(v.log, i) == LogOf(w.log, i) + o.notes
            && (w.due || o.reacquire ==> v.due)
  {
    EmissionsTagged(p, now, w);
    ApplyIsLocal(w, Emissions(p, now, w), i);
  }

  /** What finding the targets again does to one pair, before it emits. */
  lemma RetargetAt(found: Discoveries, w: World, i: Instrument)
    requires Shaped(w)
    ensures var v, o := Apply(w.(watching := true), Retargets(found, w)), Retarget(found[i], i, w.pairs[i]);
            && v.pairs[i] == o.pair
            && LogOf(v.log, i) == LogOf(w.log, i) + o.notes
  {
    RetargetsTagged(found, w);
    ApplyIsLocal(w.(watching := true), Retargets(found, w), i);
  }

  ghost predicate FollowsShown(shown: Option<Quote>, x: Pair, log: seq<Note>, due: bool) {
    && LastQuote(log) == shown
    && (shown.Some? <==> Live(x.status))
    && (shown.None? ==> due)
  }

  lemma EmitIsGood(shown: Option<Quote>, now: int, i: Instrument, x: Pair, log: seq<Note>, watching: bool, due: bool)
    requires GoodPair(x, log, watching, due) && (shown.Some? ==> Readable(shown.value))
    ensures var o := Emit(shown, now, i, x);
            && GoodPair(o.pair, log + o.notes, watching, due || o.reacquire)
            && (x.target.Some? ==> FollowsShown(shown, o.pair, log + o.notes, due || o.reacquire))
  {
    EmitExplained(shown, now, i, x, log);
    var o := Emit(shown, now, i, x);
    if x.target == None {
      assert log + o.notes == log;
    }
  }

  /** After an emission every targeted pair's last log entry is what the page shows; a target
      that cannot be read is lost and a reacquisition is scheduled. */
  lemma EmissionFollowsThePage(p: Page, now: int, w: World, i: Instrument)
    requires Shaped(w) && GoodAt(w, i)
    ensures var v := EmitCurrent(p, now, w);
            && GoodAt(v, i)
            && (w.pairs[i].target.Some? ==>
                  FollowsShown(Shown(p, i, w.pairs[i]), v.pairs[i], LogOf(v.log, i), v.due))
  {
    var shown := Shown(p, i, w.pairs[i]);
    ShownIsReadable(p, i, w.pairs[i]);
    EmitIsGood(shown, now, i, w.pairs[i], LogOf(w.log, i), w.watching, w.due);
    EmitAt(p, now, w, i);
  }

  /** The quote a found pair's candidates all show. */
  function Agreed(p: Page, i: Instrument): Option<Quote> {
    ScannedUsable(p);
    var m := Matches(p, Scanned(p), i);
    if m != [] && Judge(m).Found? then Some(m[0].quote) else None
  }

  lemma FoundIsRead(p: Page, i: Instrument)
    ensures Discovered(p, i).Found? <==> Agreed(p, i).Some?
    ensures Discovered(p, i).Found? ==> ReadQuote(p, i, Discovered(p, i).target) == Agreed(p, i)
  {
    FoundWhenCandidatesAgree(p, i);
  }

  /** What an acquisition that discovers `d`, where the candidates agree on `shown`, makes of a
      pair: the status says what the page holds; FOUND is left only on a kept target whose
      price was already handed on, READY means it was handed on now. */
  ghost predicate Follows(d: Discovery, shown: Option<Quote>, now: int, i: Instrument, x: Pair, before: seq<Note>, y: Pair, after: seq<Note>) {
    && (d == Missing <==> y.status == MISSING)
    && (d == Ambiguous <==> y.status == AMBIGUOUS)
    && (d.Found? ==>
          && shown.Some?
          && y.target == Some(d.target)
          && LastQuote(after) == shown
          && var kept := x.target == Some(d.target) && x.status != MISSING && x.status != AMBIGUOUS;
          && y.status == (if kept && LastQuote(before) == shown then FOUND else READY)
          && after == before
               + (if kept then [] else [Replaced(i)])
               + (if y.status == READY then [Emitted(i, shown.value, now)] else []))
  }

  function Again(d: Discovery, shown: Option<Quote>, now: int, i: Instrument, x: Pair): Outcome {
    var first := Retarget(d, i, x);
    var second := Emit(shown, now, i, first.pair);
    Outcome(second.pair, first.notes + second.notes, second.reacquire)
  }

  lemma LostIsGood(i: Instrument, x: Pair, log: seq<Note>, status: Status, due: bool)
    requires Explained(x, log) && Incomplete(status)
    ensures GoodPair(Pair(None, None, status, x.lastAt), log + [Lost(i)], true, due)
  {
    LostIsExplained(i, x, log, status);
  }

  lemma LostIsExplained(i: Instrument, x: Pair, log: seq<Note>, status: Status)
    requires Explained(x, log)
    ensures Explained(Pair(None, None, status, x.lastAt), log + [Lost(i)])
    ensures (log + [Lost(i)])[|log|].Lost?
  {
    LogGrows(log, Lost(i));
  }

  lemma AgainNotFound(d: Discovery, now: int, i: Instrument, x: Pair, log: seq<Note>, due: bool)
    requires Explained(x, log) && !d.Found?
    ensures var o := Again(d, None, now, i, x);
            && GoodPair(o.pair, log + o.notes, true, due)
            && Follows(d, None, now, i, x, log, o.pair, log + o.notes)
  {
    var y := Retarget(d, i, x).pair;
    LostIsGood(i, x, log, y.status, due);
    assert Again(d, None, now, i, x) == Outcome(y, [Lost(i)], false);
  }

  lemma AgainKept(d: Discovery, q: Quote, now: int, i: Instrument, x: Pair, log: seq<Note>, due: bool)
    requires Explained(x, log) && (x.key.Some? <==> Live(x.status)) && Readable(q)
    requires d.Found? && KeepsTarget(x, d.target)
    ensures var o := Again(d, Some(q), now, i, x);
            && GoodPair(o.pair, log + o.notes, true, due)
            && Follows(d, Some(q), now, i, x, log, o.pair, log + o.notes)
  {
    var first := x.(status := FOUND);
    EmitExplained(Some(q), now, i, first, log);
    var o := Emit(Some(q), now, i, first);
    assert Again(d, Some(q), now, i, x) == Outcome(o.pair, o.notes, o.reacquire);
    assert log[|log| - 1].Emitted? && Readable(log[|log| - 1].quote);
    assert log + [] + o.notes == log + o.notes;
    if LastQuote(log) == Some(q) {
      assert log + o.notes == log;
    }
  }

  lemma AgainReplaced(d: Discovery, q: Quote, now: int, i: Instrument, x: Pair, log: seq<Note>, due: bool)
    requires Explained(x, log) && Readable(q)
    requires d.Found? && !KeepsTarget(x, d.target)
    ensures var o := Again(d, Some(q), now, i, x);
            && GoodPair(o.pair, log + o.notes, true, due)
            && Follows(d, Some(q), now, i, x, log, o.pair, log + o.notes)
  {
    var y := Pair(Some(d.target), Some(KeyOf(q)), READY, Some(now));
    var notes := [Replaced(i), Emitted(i, q, now)];
    LogGrows(log, Replaced(i));
    LogGrows(log + [Replaced(i)], Emitted(i, q, now));
    assert log + notes == log + [Replaced(i)] + [Emitted(i, q, now)];
    assert Again(d, Some(q), now, i, x) == Outcome(y, notes, false);
    assert GoodPair(y, log + notes, true, due);
  }

  lemma AgainFollows(d: Discovery, shown: Option<Quote>, now: int, i: Instrument, x: Pair, log: seq<Note>, due: bool)
    requires Explained(x, log) && (x.key.Some? <==> Live(x.status))
    requires shown.Some? ==> Readable(shown.value)
    requires d.Found? <==> shown.Some?
    ensures var o := Again(d, shown, now, i, x);
            && GoodPair(o.pair, log + o.notes, true, due)
            && Follows(d, shown, now, i, x, log, o.pair, log + o.notes)
  {
    if !d.Found? {
      AgainNotFound(d, now, i, x, log, due);
    } else if KeepsTarget(x, d.target) {
      AgainKept(d, shown.value, now, i, x, log, due);
    } else {
      AgainReplaced(d, shown.value, now, i, x, log, due);
    }
  }

  lemma RetargetsTo(d: Discovery, i: Instrument, x: Pair)
    ensures Retarget(d, i, x).pair.target == if d.Found? then Some(d.target) else None
  {
  }

  lemma ShownAgain(p: Page, i: Instrument, x: Pair)
    ensures Shown(p, i, Retarget(Discovered(p, i), i, x).pair) == Agreed(p, i)
  {
    var d := Discovered(p, i);
    FoundIsRead(p, i);
    RetargetsTo(d, i, x);
  }

  lemma EmitAfter(p: Page, now: int, m: World, i: Instrument, log: seq<Note>, first: Outcome)
    requires Shaped(m) && m.pairs[i] == first.pair && LogOf(m.log, i) == log + first.notes
    ensures var v, second := EmitCurrent(p, now, m), Emit(Shown(p, i, first.pair), now, i, first.pair);
            && v.watching == m.watching
            && v.pairs[i] == second.pair
            && LogOf(v.log, i) == log + (first.notes + second.notes)
  {
    EmitAt(p, now, m, i);
    Regroup(log, first.notes, Emit(Shown(p, i, first.pair), now, i, first.pair).notes);
  }

  lemma Regroup(a: seq<Note>, b: seq<Note>, c: seq<Note>)
    ensures a + b + c == a + (b + c)
  {
  }

  lemma AcquireAt(p: Page, now: int, w: World, i: Instrument)
    requires Shaped(w)
    ensures var v, o := Acquire(p, now, w), Again(Discovered(p, i), Agreed(p, i), now, i, w.pairs[i]);
            && v.watching
            && v.pairs[i] == o.pair
            && LogOf(v.log, i) == LogOf(w.log, i) + o.notes
  {
    var m := Apply(w.(watching := true), Retargets(Discover(p), w));
    RetargetAt(Discover(p), w, i);
    EmitAfter(p, now, m, i, LogOf(w.log, i), Retarget(Discovered(p, i), i, w.pairs[i]));
    ShownAgain(p, i, w.pairs[i]);
  }

  /** After an acquisition every pair follows the page. */
  lemma AcquireFollowsThePage(p: Page, now: int, w: World, i: Instrument)
    requires Shaped(w) && Settled(w, i)
    ensures var v := Acquire(p, now, w);
            && GoodAt(v, i)
            && Follows(Discovered(p, i), Agreed(p, i), now, i,
                       w.pairs[i], LogOf(w.log, i), v.pairs[i], LogOf(v.log, i))
  {
    AcquireAt(p, now, w, i);
    ShownAgain(p, i, w.pairs[i]);
    ShownIsReadable(p, i, Retarget(Discovered(p, i), i, w.pairs[i]).pair);
    FoundIsRead(p, i);
    AgainFollows(Discovered(p, i), Agreed(p, i), now, i, w.pairs[i], LogOf(w.log, i), Acquire(p, now, w).due);
  }

  /** An acquisition reads every target it finds, so it schedules no further one. */
  lemma AcquisitionSettles(p: Page, now: int, w: World)
    requires Shaped(w)
    ensures Acquire(p, now, w).due <==> w.due
    ensures !TimerFired(p, now, w).due
  {
    AcquireSchedulesNothing(p, now, w);
    AcquireSchedulesNothing(p, now, w.(due := false));
  }

  lemma AcquireSchedulesNothing(p: Page, now: int, w: World)
    requires Shaped(w)
    ensures Acquire(p, now, w).due <==> w.due
  {
    var m := Retargeted(p, w);
    RetargetingSchedulesNothing(p, w);
    EmissionSchedulesExactlyWhen(p, now, m);
    forall i: Instrument | m.pairs[i].target.Some?
      ensures ReadQuote(p, i, m.pairs[i].target.value).Some?
    {
      RetargetedReads(p, w, i);
    }
  }

  /** An acquisition before it emits. */
  function Retargeted(p: Page, w: World): World
    requires Shaped(w)
  {
    Apply(w.(watching := true), Retargets(Discover(p), w))
  }

  lemma RetargetingSchedulesNothing(p: Page, w: World)
    requires Shaped(w)
    ensures Retargeted(p, w).due <==> w.due
  {
    var outs := Retargets(Discover(p), w);
    forall i: Instrument ensures !outs[i].reacquire {
      RetargetNeverReacquires(Discovered(p, i), i, w.pairs[i]);
    }
    AppliedDue(w.(watching := true), outs);
  }

  lemma RetargetNeverReacquires(d: Discovery, i: Instrument, x: Pair)
    ensures !Retarget(d, i, x).reacquire
  {
  }

  lemma AppliedDue(w: World, outs: Outcomes)
    requires forall i: Instrument :: !outs[i].reacquire
    ensures Apply(w, outs).due == w.due
  {
  }

  lemma RetargetedReads(p: Page, w: World, i: Instrument)
    requires Shaped(w) && Retargeted(p, w).pairs[i].target.Some?
    ensures ReadQuote(p, i, Retargeted(p, w).pairs[i].target.value).Some?
  {
    RetargetAt(Discover(p), w, i);
    FoundIsRead(p, i);
    RetargetsTo(Discovered(p, i), i, w.pairs[i]);
  }

  lemma MoveKeepsGood(staleAfter: nat, s: Step, w: World)
    requires Good(w)
    ensures Good(Move(staleAfter, s, w))
  {
    forall i: Instrument
      ensures GoodAt(Move(staleAfter, s, w), i)
    {
      assert GoodAt(w, i);
      match s
      case Start(p, now) => AcquireFollowsThePage(p, now, w, i);
      case TargetMutation(p, now) => EmissionFollowsThePage(p, now, w, i);
      case AcquireTimer(p, now) =>
        if w.due {
          AcquireFollowsThePage(p, now, w.(due := false), i);
        }
      case PageMutation(p) =>
      case StaleTimer(now) =>
      case Stop =>
    }
  }

  lemma {:induction false} RunKeepsGood(staleAfter: nat, steps: seq<Step>)
    ensures Good(Run(staleAfter, steps))
  {
    if steps == [] {
      forall i: Instrument ensures GoodAt(Initial, i) {
      }
    } else {
      RunKeepsGood(staleAfter, steps[..|steps| - 1]);
      MoveKeepsGood(staleAfter, steps[|steps| - 1], Run(staleAfter, steps[..|steps| - 1]));
    }
  }

  // ---------------------------------------------------------------- theorems

  /** In every run: a pair has a last quote exactly while it is FOUND, READY or STALE, it is then
      the last quote handed on and nothing was lost since, and its time is that emission's. */
  lemma StateFollowsTheLog(staleAfter: nat, steps: seq<Step>, i: Instrument)
    ensures var w := Run(staleAfter, steps);
            && (w.pairs[i].key.Some? <==> w.pairs[i].status in {FOUND, READY, STALE})
            && (w.pairs[i].key.Some? <==> LastQuote(LogOf(w.log, i)).Some?)
            && (w.pairs[i].key.Some? ==> w.pairs[i].key.value == KeyOf(LastQuote(LogOf(w.log, i)).value))
            && w.pairs[i].lastAt == LastEmission(LogOf(w.log, i))
            && (w.watching && w.pairs[i].key.Some? ==> w.pairs[i].target.Some?)
  {
    RunKeepsGood(staleAfter, steps);
    assert GoodAt(Run(staleAfter, steps), i);
  }

  /** In every run the same price is handed on twice in a row only across a lost or replaced target. */
  lemma SamePriceOnlyAcrossALoss(staleAfter: nat, steps: seq<Step>, i: Instrument, j: nat, k: nat)
    requires j < k < |LogOf(Run(staleAfter, steps).log, i)|
    requires var log := LogOf(Run(staleAfter, steps).log, i);
             && log[j].Emitted? && log[k].Emitted? && log[j].quote == log[k].quote
             && forall m | j < m < k && log[m].Emitted? :: log[m].quote == log[j].quote
    ensures var log := LogOf(Run(staleAfter, steps).log, i);
            exists m | j < m < k :: log[m].Lost? || log[m].Replaced?
  {
    RunKeepsGood(staleAfter, steps);
    assert GoodAt(Run(staleAfter, steps), i);
    var log := LogOf(Run(staleAfter, steps).log, i);
    assert NoEcho(log);
    var next := j + 1;
    assert !log[next].Emitted?;
  }

  /** Marking is exact: a pair becomes stale when its last quote was handed on more than
      `staleAfter` ago, and nothing else changes. */
  lemma MarkingIsExact(staleAfter: nat, now: int, w: World, i: Instrument)
    requires Good(w)
    ensures var v := Move(staleAfter, StaleTimer(now), w);
            var last := LastEmission(LogOf(w.log, i));
            && v.log == w.log && v.due == w.due && v.watching == w.watching
            && v.pairs[i] == w.pairs[i].(status := v.pairs[i].status)
            && (w.pairs[i].status == READY ==> last.Some?)
            && (v.pairs[i].status == if w.pairs[i].status == READY && now - last.value > staleAfter
                                     then STALE else w.pairs[i].status)
  {
    assert GoodAt(w, i);
    var log := LogOf(w.log, i);
    if w.pairs[i].status == READY {
      assert log[|log| - 1].Emitted?;
    }
  }

  /** While watching, a pair without a live quote never waits for ever: either a reacquisition
      is already scheduled or the next change of the page schedules one. */
  lemma BrokenPairsAreRetried(p: Page, w: World, i: Instrument)
    requires Good(w) && w.watching && w.pairs[i].key.None?
    ensures PageMutated(p, w).due
    ensures w.pairs[i].target.Some? ==> w.due
  {
    assert GoodAt(w, i);
    assert Incomplete(w.pairs[i].status);
  }

  /** While watching, a change of the page leaves a reacquisition scheduled exactly when one was
      already, some pair has no live quote, or some live pair's row or table left the page. */
  lemma MutationSchedulesExactlyWhen(p: Page, w: World)
    requires Good(w) && w.watching
    ensures PageMutated(p, w).due <==>
              w.due || exists i: Instrument :: w.pairs[i].key.None? || Detached(p, w.pairs[i])
  {
    forall i: Instrument
      ensures (w.pairs[i].key.None? <==> Incomplete(w.pairs[i].status))
      ensures w.pairs[i].key.Some? ==> w.pairs[i].target.Some?
    {
      assert GoodAt(w, i);
    }
    if i: Instrument :| w.pairs[i].key.None? || Detached(p, w.pairs[i]) {
      assert Incomplete(w.pairs[i].status) || Removed(p, w.pairs[i].target.value);
      assert NeedsAcquire(p, w);
    }
    if i: Instrument :| w.pairs[i].target.Some? && Removed(p, w.pairs[i].target.value) {
      assert w.pairs[i].key.None? || Detached(p, w.pairs[i]);
    }
  }

  ghost predicate Detached(p: Page, x: Pair) {
    x.target.Some? && (x.target.value.row !in p.elements || x.target.value.table !in p.elements)
  }

  predicate PriceRejection(rule: A.Rule) {
    rule == A.NumPricePositive || rule == A.NumPriceBroadRange || rule == A.NumCrossedQuote
  }

  /** A quote the observer hands on is never rejected by the adapter for its prices: in every
      state and under every configuration, a snapshot that carries them is answered by no
      price rule. */
  lemma HandedOnIsPlausible(p: Page, i: Instrument, t: Target, c: A.Config, s: A.State, e: A.Envelope)
    requires ReadQuote(p, i, t).Some? ==>
               var q := ReadQuote(p, i, t).value;
               && IsPrice(q.bid, 0, |q.bid|) && IsPrice(q.ask, 0, |q.ask|)
               && Carries(e, i, PriceOf(q.bid), PriceOf(q.ask))
    ensures ReadQuote(p, i, t).Some? ==>
              match A.Process(c, s, e).1
              case Output(rules, _) => NoPrice(rules)
              case Raised => true
  {
    if ReadQuote(p, i, t).Some? {
      var q := ReadQuote(p, i, t).value;
      ReadExactlyWhen(p, i, t.bidCell, t.askCell, q);
      PlausibleIsNotRejected(c, s, e, i, PriceOf(q.bid), PriceOf(q.ask));
    }
  }

  /** A snapshot of the pair with these prices, however written. */
  ghost predicate Carries(e: A.Envelope, i: Instrument, bid: real, ask: real) {
    && e.payload.Object? && e.payload.instrument == Some(i) && e.semantics == A.Snapshot
    && e.payload.bid.Some? && e.payload.bid.value.value == bid
    && e.payload.ask.Some? && e.payload.ask.value.value == ask
  }

  lemma PlausibleIsNotRejected(c: A.Config, s: A.State, e: A.Envelope, i: Instrument, bid: real, ask: real)
    requires Carries(e, i, bid, ask)
    requires SpecOf(i).minPrice <= bid <= ask <= SpecOf(i).maxPrice
    ensures match A.Process(c, s, e).1
            case Output(rules, _) => NoPrice(rules)
            case Raised => true
  {
    var prev := A.Lookup(s.quotes, A.KeyOf(e));
    if A.Assess(c, prev, e).Accept? {
      NoPriceRuling(c, prev, e, A.Assess(c, prev, e).quote);
    } else {
      NoPriceVerdict(c, prev, e, i, bid, ask);
    }
  }

  lemma NoPriceVerdict(c: A.Config, prev: Option<A.Quote>, e: A.Envelope, i: Instrument, bid: real, ask: real)
    requires Carries(e, i, bid, ask) && A.Assess(c, prev, e).Reject?
    requires SpecOf(i).minPrice <= bid <= ask <= SpecOf(i).maxPrice
    ensures !PriceRejection(A.Assess(c, prev, e).rule)
  {
    assert A.PriceRule(i, bid, ask) == None;
  }

  lemma NoPriceRuling(c: A.Config, prev: Option<A.Quote>, e: A.Envelope, q: A.Candidate)
    ensures NoPrice(match A.Admit(c, prev, e, q) case Suppress(rules) => rules case Publish(rules) => rules)
  {
    NoPriceOrder(c, prev, e, q);
    var order := match A.OrderRuling(c, prev, e, q) case Suppress(rules) => rules case Publish(rules) => rules;
    if A.OrderRuling(c, prev, e, q).Publish? {
      var spread := order + (if A.WideSpread(c, q) then [A.PlausExtremeSpread] else []);
      var negative := spread + (if A.Visible(e) && A.CollectorTime(e) - A.ObservedTime(e) < 0
                                then [A.TimeNegativeDelay] else []);
      NoPriceMore(order, if A.WideSpread(c, q) then [A.PlausExtremeSpread] else []);
      NoPriceMore(spread, if A.Visible(e) && A.CollectorTime(e) - A.ObservedTime(e) < 0
                          then [A.TimeNegativeDelay] else []);
      NoPriceMore(negative, if A.Visible(e) && A.CollectorTime(e) - A.ObservedTime(e) > c.maxDelay
                            then [A.TimeExcessiveDelay] else []);
    }
  }

  predicate NoPrice(rules: seq<A.Rule>) { forall rule | rule in rules :: !PriceRejection(rule) }

  lemma NoPriceMore(rules: seq<A.Rule>, more: seq<A.Rule>)
    requires NoPrice(rules) && NoPrice(more)
    ensures NoPrice(rules + more)
  {
  }

  lemma NoPriceOrder(c: A.Config, prev: Option<A.Quote>, e: A.Envelope, q: A.Candidate)
    ensures NoPrice(match A.OrderRuling(c, prev, e, q) case Suppress(rules) => rules case Publish(rules) => rules)
  {
  }

  lemma WithoutATargetItEmits(d: Discovery, shown: Option<Quote>, now: int, i: Instrument, x: Pair, before: seq<Note>, y: Pair, after: seq<Note>)
    requires Follows(d, shown, now, i, x, before, y, after) && d.Found? && x.target == None
    ensures y.status == READY && shown.Some?
    ensures after == before + [Replaced(i), Emitted(i, shown.value, now)]
  {
  }

  /** A found pair that had no target is handed on, whether or not its price changed. */
  lemma FreshTargetsEmit(w: World, p: Page, now: int, i: Instrument)
    requires Shaped(w) && Settled(w, i) && w.pairs[i].target == None && Discovered(p, i).Found?
    ensures var v := Acquire(p, now, w);
            && v.pairs[i].status == READY
            && Agreed(p, i).Some?
            && LogOf(v.log, i) == LogOf(w.log, i) + [Replaced(i), Emitted(i, Agreed(p, i).value, now)]
  {
    var v := Acquire(p, now, w);
    AcquireFollowsThePage(p, now, w, i);
    WithoutATargetItEmits(Discovered(p, i), Agreed(p, i), now, i, w.pairs[i], LogOf(w.log, i), v.pairs[i], LogOf(v.log, i));
  }

  /** After a stop nothing but a start or the staleness timer changes anything, and last quotes,
      statuses and the log are what they were. */
  lemma StoppedIsQuiet(staleAfter: nat, w: World, p: Page, now: int, i: Instrument)
    requires Shaped(w)
    ensures var v := Stopped(w);
            && Shaped(v) && v.log == w.log
            && v.pairs[i] == w.pairs[i].(target := None)
            && Move(staleAfter, TargetMutation(p, now), v) == v
            && Move(staleAfter, PageMutation(p), v) == v
            && Move(staleAfter, AcquireTimer(p, now), v) == v
            && Move(staleAfter, Stop, v) == v
  {
    assert Stopped(Stopped(w)).pairs == Stopped(w).pairs;
  }

  /** So after a stop, a start hands every found pair's price on again. */
  lemma RestartEmitsAgain(w: World, p: Page, now: int, i: Instrument)
    requires Good(w) && Discovered(p, i).Found?
    ensures var v := Acquire(p, now, Stopped(w));
            && v.pairs[i].status == READY
            && Agreed(p, i).Some?
            && LogOf(v.log, i) == LogOf(w.log, i) + [Replaced(i), Emitted(i, Agreed(p, i).value, now)]
  {
    assert GoodAt(w, i);
    FreshTargetsEmit(Stopped(w), p, now, i);
  }
}

/** The observer object, whose three maps together are one `World`. */
module MultiQuoteObserverClass {
  import opened Wrappers
  import opened Instruments
  import opened DomScan
  import opened DomObserver

  datatype PairState = PairState(status: Status, lastObservationAt: Option<int>)

  function PairIn(targets: map<Instrument, Target>, lastQuotes: map<Instrument, string>,
                  states: map<Instrument, PairState>, i: Instrument): Pair
    requires i in states
  {
    Pair(if i in targets then Some(targets[i]) else None,
         if i in lastQuotes then Some(lastQuotes[i]) else None,
         states[i].status, states[i].lastObservationAt)
  }

  /** One pair's outcome put into the world. */
  function Put(w: World, i: Instrument, o: Outcome): World {
    w.(pairs := w.pairs[i := o.pair], log := w.log + o.notes)
  }

  lemma PutNothing(w: World, i: Instrument)
    requires i in w.pairs
    ensures Put(w, i, Outcome(w.pairs[i], [], false)) == w
  {
  }

  lemma ForgetThenAim(w: World, i: Instrument, t: Target)
    requires i in w.pairs
    ensures var x := w.pairs[i];
            Put(Put(w, i, Outcome(x.(key := None), [Replaced(i)], false)), i,
                Outcome(x.(key := None).(target := Some(t), status := FOUND), [], false))
            == Put(w, i, Outcome(Pair(Some(t), None, FOUND, x.lastAt), [Replaced(i)], false))
  {
  }

  /** The outcomes of the first k pairs put into the world. */
  function PutUpTo(w: World, outs: Outcomes, k: nat): (v: World)
    requires Shaped(w) && k <= |SUPPORTED|
    ensures Shaped(v)
  {
    if k == 0 then w else Put(PutUpTo(w, outs, k - 1), SUPPORTED[k - 1], outs[SUPPORTED[k - 1]])
  }

  lemma {:induction false} PutUpToAt(w: World, outs: Outcomes, k: nat, i: Instrument)
    requires Shaped(w) && k <= |SUPPORTED|
    ensures var v := PutUpTo(w, outs, k);
            && v.pairs[i] == (if Rank(i) < k then outs[i].pair else w.pairs[i])
            && v.log == w.log + NotesUpTo(outs, k)
            && v.watching == w.watching && v.due == w.due
  {
    if k > 0 {
      var before := k - 1;
      PutUpToAt(w, outs, before, i);
      RankOf(before, i);
      PutAt(PutUpTo(w, outs, before), SUPPORTED[before], outs[SUPPORTED[before]], i);
      assert w.log + NotesUpTo(outs, before) + outs[SUPPORTED[before]].notes == w.log + NotesUpTo(outs, k);
    }
  }

  lemma PutAt(w: World, j: Instrument, o: Outcome, i: Instrument)
    requires Shaped(w)
    ensures var v := Put(w, j, o);
            && v.pairs[i] == (if i == j then o.pair else w.pairs[i])
            && v.log == w.log + o.notes && v.watching == w.watching && v.due == w.due
  {
  }

  predicate SomeReacquire(outs: Outcomes, k: nat) {
    exists i: Instrument :: Rank(i) < k && outs[i].reacquire
  }

  lemma SomeReacquireStep(outs: Outcomes, k: nat)
    requires k < |SUPPORTED|
    ensures SomeReacquire(outs, k + 1) <==> SomeReacquire(outs, k) || outs[SUPPORTED[k]].reacquire
  {
    forall i: Instrument ensures Rank(i) == k <==> i == SUPPORTED[k] {
      RankOf(k, i);
    }
    assert Rank(SUPPORTED[k]) == k;
  }

  /** Visiting every pair applies all outcomes. */
  lemma AllPut(w: World, outs: Outcomes)
    requires Shaped(w)
    ensures PutUpTo(w, outs, |SUPPORTED|).(due := w.due || SomeReacquire(outs, |SUPPORTED|)) == Apply(w, outs)
  {
    var v := PutUpTo(w, outs, |SUPPORTED|);
    forall i: Instrument ensures v.pairs[i] == outs[i].pair && Rank(i) < |SUPPORTED| {
      PutUpToAt(w, outs, |SUPPORTED|, i);
      RankInverse(i);
    }
    PutUpToAt(w, outs, |SUPPORTED|, EURUSD);
    assert v.pairs == Apply(w, outs).pairs;
  }

  /** The world with its target map emptied. */
  function Untargeted(w: World): World
  {
    w.(pairs := map i: Instrument | i in w.pairs :: w.pairs[i].(target := None))
  }

  lemma RetargetsNeverSchedule(found: Discoveries, w: World)
    requires Shaped(w)
    ensures !SomeReacquire(Retargets(found, w), |SUPPORTED|)
  {
  }

  class MultiQuoteObserver {
    var targets: map<Instrument, Target>
    var lastQuotes: map<Instrument, string>
    var states: map<Instrument, PairState>
    var watching: bool
    var acquireTimer: bool
    const staleAfterMs: nat
    /** The quotes handed to onQuote, with the losses between them. */
    ghost var log: seq<Note>

    ghost predicate Valid()
      reads this
    {
      forall i: Instrument :: i in states
    }

    ghost function View(): (w: World)
      reads this
      requires Valid()
      ensures Shaped(w)
    {
      World(map i: Instrument | i in states :: PairIn(targets, lastQuotes, states, i), watching, acquireTimer, log)
    }

    constructor (staleAfter: nat)
      ensures Valid() && View() == Initial && staleAfterMs == staleAfter
    {
      targets, lastQuotes := map[], map[];
      states := Everywhere(PairState(MISSING, None));
      watching, acquireTimer, staleAfterMs, log := false, false, staleAfter, [];
    }

    /** A pair that cannot be read, or was not found. */
    method Lose(i: Instrument, status: Status)
      requires Valid()
      modifies this`lastQuotes, this`states, this`log
      ensures Valid()
      ensures var w := old(View());
              View() == Put(w, i, Outcome(w.pairs[i].(key := None, status := status), [Lost(i)], false))
    {
      lastQuotes := lastQuotes - {i};
      states := states[i := PairState(status, states[i].lastObservationAt)];
      log := log + [Lost(i)];
      assert View().pairs == old(View()).pairs[i := old(View()).pairs[i].(key := None, status := status)];
    }

    method Record(i: Instrument, quote: Quote, now: int)
      requires Valid()
      modifies this`lastQuotes, this`states, this`log
      ensures Valid()
      ensures var w := old(View());
              var x := Pair(w.pairs[i].target, Some(KeyOf(quote)), READY, Some(now));
              View() == Put(w, i, Outcome(x, [Emitted(i, quote, now)], false))
    {
      ghost var x := Pair(View().pairs[i].target, Some(KeyOf(quote)), READY, Some(now));
      lastQuotes := lastQuotes[i := KeyOf(quote)];
      states := states[i := PairState(READY, Some(now))];
      log := log + [Emitted(i, quote, now)];
      assert View().pairs == old(View()).pairs[i := x];
    }

    /** One pair of emitCurrent. */
    method EmitPair(p: Page, now: int, i: Instrument) returns (reacquire: bool)
      requires Valid()
      modifies this`lastQuotes, this`states, this`log
      ensures Valid()
      ensures var w := old(View());
              var o := Emit(Shown(p, i, w.pairs[i]), now, i, w.pairs[i]);
              View() == Put(w, i, o) && reacquire == o.reacquire
    {
      reacquire := false;
      PutNothing(View(), i);
      if i !in targets {
        return;
      }
      var quote := ReadTarget(p, i);
      if quote == None {
        Lose(i, MISSING);
        return true;
      }
      if i in lastQuotes && KeyOf(quote.value) == lastQuotes[i] {
        return;
      }
      Record(i, quote.value, now);
    }

    method ReadTarget(p: Page, i: Instrument) returns (quote: Option<Quote>)
      requires Valid() && i in targets
      ensures View().pairs[i].target.Some? && quote == Shown(p, i, View().pairs[i])
    {
      quote := ReadQuote(p, i, targets[i]);
    }

    method EmitCurrentQuotes(p: Page, now: int)
      requires Valid()
      modifies this`lastQuotes, this`states, this`log, this`acquireTimer
      ensures Valid() && View() == EmitCurrent(p, now, old(View()))
    {
      ghost var w := View();
      ghost var outs := Emissions(p, now, w);
      var reacquire := false;
      var k := 0;
      while k < |SUPPORTED|
        invariant k <= |SUPPORTED| && Valid()
        invariant View() == PutUpTo(w, outs, k)
        invariant reacquire <==> SomeReacquire(outs, k)
      {
        var i := SUPPORTED[k];
        PutUpToAt(w, outs, k, i);
        SomeReacquireStep(outs, k);
        RankOf(k, i);
        var failed := EmitPair(p, now, i);
        reacquire := reacquire || failed;
        k := k + 1;
      }
      PutUpToAt(w, outs, |SUPPORTED|, EURUSD);
      if reacquire {
        ScheduleAcquire();
      }
      AllPut(w, outs);
    }

    method ScheduleAcquire()
      requires Valid()
      modifies this`acquireTimer
      ensures Valid() && View() == old(View()).(due := true)
    {
      if acquireTimer {
        return;
      }
      acquireTimer := true;
    }

    method Forget(i: Instrument)
      requires Valid()
      modifies this`lastQuotes, this`log
      ensures Valid()
      ensures var w := old(View()); View() == Put(w, i, Outcome(w.pairs[i].(key := None), [Replaced(i)], false))
    {
      ghost var w := View();
      lastQuotes := lastQuotes - {i};
      log := log + [Replaced(i)];
      assert View().pairs == w.pairs[i := w.pairs[i].(key := None)];
    }

    method Aim(i: Instrument, t: Target)
      requires Valid()
      modifies this`targets, this`states
      ensures Valid()
      ensures var w := old(View());
              View() == Put(w, i, Outcome(w.pairs[i].(target := Some(t), status := FOUND), [], false))
    {
      ghost var w := View();
      targets := targets[i := t];
      states := states[i := PairState(FOUND, states[i].lastObservationAt)];
      assert View().pairs == w.pairs[i := w.pairs[i].(target := Some(t), status := FOUND)];
    }

    /** One pair of acquire, whose target map was emptied before. */
    method RetargetPair(d: Discovery, i: Instrument, previous: Option<Target>)
      requires Valid() && i !in targets
      modifies this`targets, this`lastQuotes, this`states, this`log
      ensures Valid()
      ensures var w := old(View());
              View() == Put(w, i, Retarget(d, i, w.pairs[i].(target := previous)))
    {
      ghost var w := View();
      if d.Found? {
        if previous != Some(d.target) || Incomplete(states[i].status) {
          Forget(i);
          ForgetThenAim(w, i, d.target);
        }
        Aim(i, d.target);
      } else {
        Lose(i, if d == Missing then MISSING else AMBIGUOUS);
      }
    }

    method RetargetEach(results: map<Instrument, Discovery>, previousTargets: map<Instrument, Target>, ghost w: World, ghost outs: Outcomes)
      requires Valid() && Shaped(w) && View() == Untargeted(w)
      requires forall i: Instrument :: i in results && outs[i] == Retarget(results[i], i, w.pairs[i])
      requires forall i: Instrument :: w.pairs[i].target == if i in previousTargets then Some(previousTargets[i]) else None
      modifies this`targets, this`lastQuotes, this`states, this`log
      ensures Valid() && View() == PutUpTo(Untargeted(w), outs, |SUPPORTED|)
    {
      var k := 0;
      while k < |SUPPORTED|
        invariant k <= |SUPPORTED| && Valid()
        invariant View() == PutUpTo(Untargeted(w), outs, k)
      {
        var i := SUPPORTED[k];
        PutUpToAt(Untargeted(w), outs, k, i);
        RankOf(k, i);
        var previous := if i in previousTargets then Some(previousTargets[i]) else None;
        assert View().pairs[i] == w.pairs[i].(target := None);
        RetargetPair(results[i], i, previous);
        k := k + 1;
      }
    }

    method ClearTargets()
      requires Valid()
      modifies this`targets
      ensures Valid() && targets == map[] && View() == Untargeted(old(View()))
    {
      targets := map[];
      assert View().pairs == Untargeted(old(View())).pairs;
    }

    /** acquire up to its emission. */
    method RetargetAll(p: Page)
      requires Valid()
      modifies this`targets, this`lastQuotes, this`states, this`log
      ensures Valid()
      ensures var w := old(View()); View() == PutUpTo(Untargeted(w), Retargets(Discover(p), w), |SUPPORTED|)
    {
      ghost var w := View();
      ghost var outs := Retargets(Discover(p), w);
      var previousTargets := targets;
      var results := FindQuoteTargets(p);
      Agrees(p, results, w);
      ClearTargets();
      RetargetEach(results, previousTargets, w, outs);
    }

    method WatchTargets()
      requires Valid()
      modifies this`watching
      ensures Valid() && View() == old(View()).(watching := true)
    {
      watching := true;
    }

    method AcquireTargets(p: Page, now: int)
      requires Valid()
      modifies this
      ensures Valid() && View() == Acquire(p, now, old(View()))
    {
      ghost var w := View();
      RetargetAll(p);
      WatchTargets();
      AllRetargeted(w, Discover(p));
      EmitCurrentQuotes(p, now);
    }

    /** The page observer's callback. */
    method OnPageMutation(p: Page)
      requires Valid()
      modifies this
      ensures Valid() && View() == PageMutated(p, old(View()))
    {
      if !watching {
        return;
      }
      var targetRemoved := exists i: Instrument :: i in targets && Removed(p, targets[i]);
      var incomplete := exists i: Instrument :: Incomplete(states[i].status);
      ghost var w := View();
      assert forall i: Instrument :: w.pairs[i] == PairIn(targets, lastQuotes, states, i);
      SomeRemoved(p, targets, w);
      SomeIncomplete(states, w);
      if targetRemoved || incomplete {
        ScheduleAcquire();
      }
    }

    /** The target observer's callback. */
    method OnTargetMutation(p: Page, now: int)
      requires Valid()
      modifies this
      ensures Valid() && View() == Move(staleAfterMs, TargetMutation(p, now), old(View()))
    {
      if watching {
        EmitCurrentQuotes(p, now);
      }
    }

    method OnAcquireTimer(p: Page, now: int)
      requires Valid()
      modifies this
      ensures Valid() && View() == TimerFired(p, now, old(View()))
    {
      if acquireTimer {
        ClearAcquireTimer();
        AcquireTargets(p, now);
      }
    }

    method ClearAcquireTimer()
      requires Valid()
      modifies this`acquireTimer
      ensures Valid() && View() == old(View()).(due := false)
    {
      acquireTimer := false;
    }

    method StopObserving()
      requires Valid()
      modifies this
      ensures Valid() && View() == Stopped(old(View()))
    {
      watching, acquireTimer, targets := false, false, map[];
    }

    method MarkStale(now: int)
      requires Valid()
      modifies this`states
      ensures Valid() && View() == Marked(staleAfterMs, now, old(View()))
    {
      ghost var w := View();
      ghost var outs: Outcomes := map i: Instrument | i in w.pairs :: Outcome(Age(now, staleAfterMs, w.pairs[i]), [], false);
      var k := 0;
      while k < |SUPPORTED|
        invariant k <= |SUPPORTED| && Valid()
        invariant View() == PutUpTo(w, outs, k)
      {
        var i := SUPPORTED[k];
        PutUpToAt(w, outs, k, i);
        RankOf(k, i);
        MarkPair(i, now);
        k := k + 1;
      }
      AllMarked(w, outs, staleAfterMs, now);
    }

    method MarkPair(i: Instrument, now: int)
      requires Valid()
      modifies this`states
      ensures Valid()
      ensures var w := old(View());
              View() == Put(w, i, Outcome(Age(now, staleAfterMs, w.pairs[i]), [], false))
    {
      ghost var w := View();
      var state := states[i];
      if state.status == READY && state.lastObservationAt.Some? && now - state.lastObservationAt.value > staleAfterMs {
        states := states[i := state.(status := STALE)];
      }
      assert View().pairs == w.pairs[i := Age(now, staleAfterMs, w.pairs[i])];
    }
  }

  lemma {:induction false} NothingNoted(outs: Outcomes, k: nat)
    requires k <= |SUPPORTED| && forall i: Instrument :: outs[i].notes == []
    ensures NotesUpTo(outs, k) == []
  {
    if k > 0 {
      NothingNoted(outs, k - 1);
    }
  }

  lemma AllRetargeted(w: World, found: Discoveries)
    requires Shaped(w)
    ensures PutUpTo(Untargeted(w), Retargets(found, w), |SUPPORTED|).(watching := true)
            == Apply(w.(watching := true), Retargets(found, w))
  {
    var outs := Retargets(found, w);
    AllPut(Untargeted(w), outs);
    PutUpToAt(Untargeted(w), outs, |SUPPORTED|, EURUSD);
    RetargetsNeverSchedule(found, w);
    assert Apply(Untargeted(w), outs).(watching := true) == Apply(w.(watching := true), outs);
  }

  lemma Agrees(p: Page, results: map<Instrument, Discovery>, w: World)
    requires Shaped(w) && forall i: Instrument :: i in results && results[i] == Discovered(p, i)
    ensures forall i: Instrument :: Retargets(Discover(p), w)[i] == Retarget(results[i], i, w.pairs[i])
  {
  }

  lemma AllMarked(w: World, outs: Outcomes, staleAfter: nat, now: int)
    requires Shaped(w)
    requires forall i: Instrument :: outs[i] == Outcome(Age(now, staleAfter, w.pairs[i]), [], false)
    ensures PutUpTo(w, outs, |SUPPORTED|) == Marked(staleAfter, now, w)
  {
    AllPut(w, outs);
    NothingNoted(outs, |SUPPORTED|);
    PutUpToAt(w, outs, |SUPPORTED|, EURUSD);
    assert Apply(w, outs).pairs == Marked(staleAfter, now, w).pairs;
  }

  lemma SomeRemoved(p: Page, targets: map<Instrument, Target>, w: World)
    requires Shaped(w)
    requires forall i: Instrument :: w.pairs[i].target == if i in targets then Some(targets[i]) else None
    ensures (exists i: Instrument :: i in targets && Removed(p, targets[i]))
            <==> exists i: Instrument :: w.pairs[i].target.Some? && Removed(p, w.pairs[i].target.value)
  {
    if i: Instrument :| w.pairs[i].target.Some? && Removed(p, w.pairs[i].target.value) {
      assert i in targets && Removed(p, targets[i]);
    }
  }

  lemma SomeIncomplete(states: map<Instrument, PairState>, w: World)
    requires Shaped(w)
    requires forall i: Instrument :: i in states && w.pairs[i].status == states[i].status
    ensures (exists i: Instrument :: Incomplete(states[i].status))
            <==> exists i: Instrument :: Incomplete(w.pairs[i].status)
  {
    if i: Instrument :| Incomplete(w.pairs[i].status) {
      assert Incomplete(states[i].status);
    }
  }
}

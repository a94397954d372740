/** What the answer to a delivery does to its event, stated from the outside: which of the four
    histories it joins, where it stays and when it is tried again. */
module OutboxAnswers {
  import opened Wrappers
  import opened Instruments
  import opened OutboxModel
  import opened OutboxLists
  import opened OutboxLaws
  import opened OutboxTheorems

  /** What `deliver` did: answered, or threw. */
  datatype Delivery = Result(acknowledged: bool, retryable: bool) | Thrown

  function OutcomeOf<B>(e: Event<B>, d: Delivery, now: int): Outcome {
    match d
    case Thrown => RetryAt(now + Backoff(e.attempts))
    case Result(acknowledged, retryable) =>
      if acknowledged then Acked
      else if !retryable then Refused
      else RetryAt(now + Backoff(e.attempts))
  }

  predicate Acknowledges(d: Delivery) { d.Result? && d.acknowledged }

  predicate Refuses(d: Delivery) { d.Result? && !d.acknowledged && !d.retryable }

  predicate Postpones(d: Delivery) { d.Thrown? || (!d.acknowledged && d.retryable) }

  /** Milliseconds to the next attempt after 0, 1, .. 5 and six or more attempts. */
  const DELAYS: seq<nat> := [500, 1_000, 2_000, 4_000, 8_000, 16_000, 30_000]

  /** The event as it waits for its next attempt. */
  function Postponed<B>(e: Event<B>, at: int): Event<B> {
    Event(e.id, e.instrument, e.body, e.attempts + 1, at + DELAYS[Min(e.attempts, 6)])
  }

  // ------------------------------------------------------------- one answer

  /** Nothing was acknowledged, rejected or put back in between. */
  ghost predicate SameFates<B>(w: World<B>, w1: World<B>) {
    w1.hist.acked == w.hist.acked && w1.hist.rejected == w.hist.rejected && w1.hist.retried == w.hist.retried
  }

  /** The event joined exactly the history its answer calls for. */
  ghost predicate Joins<B>(w: World<B>, w1: World<B>, e: Event<B>, d: Delivery) {
    && w1.hist.acked == w.hist.acked + (if Acknowledges(d) then [e] else [])
    && w1.hist.rejected == w.hist.rejected + (if Refuses(d) then [e] else [])
    && w1.hist.retried == w.hist.retried + (if Postpones(d) then [e] else [])
  }

  function Cut<B>(s: seq<Event<B>>, k: nat): seq<Event<B>>
    requires k < |s|
  {
    s[..k] + s[k + 1..]
  }

  /** The queue with its k-th event, so answered, postponed in its place or gone. */
  function After<B>(s: seq<Event<B>>, k: nat, d: Delivery, at: int): seq<Event<B>>
    requires k < |s|
  {
    if Postpones(d) then s[k := Postponed(s[k], at)] else Cut(s, k)
  }

  /** Of the events that were pending this one alone changed, and others came behind them. */
  ghost predicate InPlace<B>(s: seq<Event<B>>, t: seq<Event<B>>, e: Event<B>, d: Delivery, at: int) {
    exists k :: 0 <= k < |s| && s[k] == e && After(s, k, d, at) <= t
  }

  lemma {:induction false} WithoutAt<B>(s: seq<Event<B>>, k: nat)
    requires k < |s| && DistinctIds(s)
    ensures Without(s, s[k].id) == s[..k] + s[k + 1..]
  {
    var id, last, t := s[k].id, s[|s| - 1], s[..|s| - 1];
    if k == |s| - 1 {
      WithoutNone(t, id);
      assert s[k + 1..] == [] && t + [] == t;
    } else {
      WithoutAt(t, k);
      assert t[..k] == s[..k] && t[k + 1..] + [last] == s[k + 1..];
      assert Without(s, id) == t[..k] + t[k + 1..] + [last];
    }
  }

  lemma {:induction false} WithoutNone<B>(s: seq<Event<B>>, id: nat)
    requires forall k | 0 <= k < |s| :: s[k].id != id
    ensures Without(s, id) == s
  {
    if s != [] {
      WithoutNone(s[..|s| - 1], id);
    }
  }

  lemma DelayIsListed(attempts: nat)
    ensures Backoff(attempts) == DELAYS[Min(attempts, 6)]
  {
    assert PowerOfTwo(0) == 1 && PowerOfTwo(1) == 2 && PowerOfTwo(2) == 4 && PowerOfTwo(3) == 8;
    assert PowerOfTwo(4) == 16 && PowerOfTwo(5) == 32 && PowerOfTwo(6) == 64;
  }

  lemma OutcomeShows<B>(e: Event<B>, d: Delivery, at: int)
    ensures OutcomeOf(e, d, at) == Acked <==> Acknowledges(d)
    ensures OutcomeOf(e, d, at) == Refused <==> Refuses(d)
    ensures OutcomeOf(e, d, at).RetryAt? ==> Retry(e, OutcomeOf(e, d, at).time) == Postponed(e, at)
  {
    DelayIsListed(e.attempts);
  }

  /** The commit of an answer. */
  lemma CommitSettles<B>(w: World<B>, e: Event<B>, d: Delivery, at: int)
    requires Shaped(w) && DistinctIds(w.events) && Leads(w, e)
    ensures var w1 := DoCommit(w, e, OutcomeOf(e, d, at));
            Joins(w, w1, e, d) && InPlace(w.events, w1.events, e, d, at)
  {
    LeaderIsFound(w, e);
    OutcomeShows(e, d, at);
    WithoutAt(w.events, IndexOf(w.events, e.id));
  }

  lemma CutPrefix<B>(s: seq<Event<B>>, s1: seq<Event<B>>, k: nat)
    requires s <= s1 && k < |s|
    ensures Cut(s, k) <= Cut(s1, k)
  {
    var more := s1[|s|..];
    assert s1 == s + more;
    assert s1[..k] == s[..k] && s1[k + 1..] == s[k + 1..] + more;
    assert Cut(s1, k) == Cut(s, k) + more;
  }

  /** Events that arrive at the end change no place. */
  lemma InPlaceAfter<B>(s: seq<Event<B>>, s1: seq<Event<B>>, t: seq<Event<B>>, e: Event<B>, d: Delivery, at: int)
    requires s <= s1 && e in s && DistinctIds(s1) && InPlace(s1, t, e, d, at)
    ensures InPlace(s, t, e, d, at)
  {
    var k :| 0 <= k < |s1| && s1[k] == e && After(s1, k, d, at) <= t;
    var j :| 0 <= j < |s| && s[j] == e;
    SamePlace(s1, j, k);
    CutPrefix(s, s1, k);
    assert After(s, k, d, at) <= After(s1, k, d, at);
  }

  lemma SamePlace<B>(s: seq<Event<B>>, j: nat, k: nat)
    requires DistinctIds(s) && j < |s| && k < |s| && s[j].id == s[k].id
    ensures j == k
  {
  }

  /** What one attempt left, in terms of members. */
  ghost predicate Answers<B>(s: seq<Event<B>>, t: seq<Event<B>>, e: Event<B>, d: Delivery, at: int) {
    && (Postpones(d) ==> Postponed(e, at) in t)
    && forall x | x in s && x.id != e.id :: x in t
  }

  lemma AfterKeeps<B>(s: seq<Event<B>>, k: nat, d: Delivery, at: int, j: nat)
    requires k < |s| && j < |s| && j != k
    ensures s[j] in After(s, k, d, at)
  {
    if Postpones(d) {
      assert After(s, k, d, at)[j] == s[j];
    } else {
      assert Cut(s, k)[if j < k then j else j - 1] == s[j];
    }
  }

  lemma InPlaceAnswers<B>(s: seq<Event<B>>, t: seq<Event<B>>, e: Event<B>, d: Delivery, at: int)
    requires InPlace(s, t, e, d, at)
    ensures Answers(s, t, e, d, at)
  {
    var k :| 0 <= k < |s| && s[k] == e && After(s, k, d, at) <= t;
    assert Postpones(d) ==> t[k] == Postponed(e, at);
    forall x | x in s && x.id != e.id ensures x in t {
      var j :| 0 <= j < |s| && s[j] == x;
      AfterKeeps(s, k, d, at, j);
    }
  }

  // ------------------------------------------------------------- many answers

  /** Of these deliveries, the ones with such an answer, in order. */
  function Those<B>(answers: seq<Delivery>, sent: seq<Event<B>>, such: Delivery -> bool): seq<Event<B>>
    requires |sent| <= |answers|
  {
    if sent == [] then []
    else
      var last := |sent| - 1;
      Those(answers, sent[..last], such) + (if such(answers[last]) then [sent[last]] else [])
  }
}

/** How the outbox's list operations act on the queue of one group. */
module OutboxLists {
  import opened Wrappers
  import opened Instruments
  import opened OutboxModel

  ghost predicate DistinctIds<B>(s: seq<Event<B>>) {
    forall j, k | 0 <= j < k < |s| :: s[j].id != s[k].id
  }

  ghost predicate Distinct(s: seq<nat>) {
    forall j, k | 0 <= j < k < |s| :: s[j] != s[k]
  }

  lemma GroupIdsSnoc<B>(g: Group, s: seq<Event<B>>, e: Event<B>)
    ensures GroupIds(g, s + [e]) == GroupIds(g, s) + (if GroupOf(e) == g then [e.id] else [])
  {
    assert (s + [e])[..|s|] == s;
  }

  lemma {:induction false} GroupIdsConcat<B>(g: Group, a: seq<Event<B>>, b: seq<Event<B>>)
    ensures GroupIds(g, a + b) == GroupIds(g, a) + GroupIds(g, b)
  {
    if b == [] {
      assert a + b == a;
    } else {
      var e := b[|b| - 1];
      assert a + b == (a + b[..|b| - 1]) + [e];
      GroupIdsSnoc(g, a + b[..|b| - 1], e);
      GroupIdsConcat(g, a, b[..|b| - 1]);
    }
  }

  lemma {:induction false} GroupIdsMember<B>(g: Group, s: seq<Event<B>>, id: nat)
    ensures id in GroupIds(g, s) <==> exists k :: 0 <= k < |s| && s[k].id == id && GroupOf(s[k]) == g
  {
    if s != [] {
      var t := s[..|s| - 1];
      GroupIdsMember(g, t, id);
      if id in GroupIds(g, t) {
        var k :| 0 <= k < |t| && t[k].id == id && GroupOf(t[k]) == g;
        assert s[k] == t[k];
      }
      if k :| 0 <= k < |s| && s[k].id == id && GroupOf(s[k]) == g {
        assert k < |t| ==> t[k] == s[k];
      }
    }
  }

  lemma {:induction false} GroupIdsDistinct<B>(g: Group, s: seq<Event<B>>)
    requires DistinctIds(s)
    ensures Distinct(GroupIds(g, s))
  {
    if s != [] {
      var t := s[..|s| - 1];
      assert DistinctIds(t);
      GroupIdsDistinct(g, t);
      GroupIdsMember(g, t, s[|s| - 1].id);
    }
  }

  /** The head that `find` returns is the first of its group's queue. */
  lemma {:induction false} FindIsHead<B>(s: seq<Event<B>>, g: Group)
    ensures Find(s, g) == None <==> GroupIds(g, s) == []
    ensures Find(s, g).Some? ==>
              var e := Find(s, g).value; e in s && GroupOf(e) == g && GroupIds(g, s)[0] == e.id
  {
    if s != [] {
      assert s == [s[0]] + s[1..];
      GroupIdsConcat(g, [s[0]], s[1..]);
      assert GroupIds(g, [s[0]]) == if GroupOf(s[0]) == g then [s[0].id] else [] by {
        assert [s[0]] == [] + [s[0]];
        GroupIdsSnoc(g, [], s[0]);
      }
      FindIsHead(s[1..], g);
    }
  }

  /** Appending never changes an existing head. */
  lemma {:induction false} FindAppend<B>(a: seq<Event<B>>, b: seq<Event<B>>, g: Group)
    ensures Find(a + b, g) == if Find(a, g).Some? then Find(a, g) else Find(b, g)
  {
    if a == [] {
      assert a + b == b;
    } else {
      assert (a + b)[0] == a[0] && (a + b)[1..] == a[1..] + b;
      FindAppend(a[1..], b, g);
    }
  }

  function Drop(s: seq<nat>, id: nat): seq<nat> {
    if s == [] then []
    else Drop(s[..|s| - 1], id) + (if s[|s| - 1] == id then [] else [s[|s| - 1]])
  }

  lemma DropSnoc(s: seq<nat>, x: nat, id: nat)
    ensures Drop(s + [x], id) == Drop(s, id) + (if x == id then [] else [x])
  {
    assert (s + [x])[..|s|] == s;
  }

  lemma WithoutSnoc<B>(s: seq<Event<B>>, e: Event<B>, id: nat)
    ensures Without(s + [e], id) == if e.id == id then Without(s, id) else Without(s, id) + [e]
  {
    assert (s + [e])[..|s|] == s;
  }

  lemma {:induction false} DropAbsent(s: seq<nat>, id: nat)
    requires id !in s
    ensures Drop(s, id) == s
  {
    if s != [] {
      DropAbsent(s[..|s| - 1], id);
    }
  }

  lemma {:induction false} DropHead(s: seq<nat>)
    requires s != [] && Distinct(s)
    ensures Drop(s, s[0]) == s[1..]
  {
    if |s| > 1 {
      var t := s[..|s| - 1];
      DropHead(t);
      assert t[1..] + [s[|s| - 1]] == s[1..];
    } else {
      assert Drop(s[..0], s[0]) == [];
    }
  }

  lemma {:induction false} GroupIdsWithout<B>(g: Group, s: seq<Event<B>>, id: nat)
    ensures GroupIds(g, Without(s, id)) == Drop(GroupIds(g, s), id)
  {
    if s != [] {
      var e := s[|s| - 1];
      var t := s[..|s| - 1];
      assert s == t + [e];
      GroupIdsSnoc(g, t, e);
      WithoutSnoc(t, e, id);
      GroupIdsWithout(g, t, id);
      assert GroupOf(e) != g ==> GroupIds(g, s) == GroupIds(g, t);
      if e.id != id {
        GroupIdsSnoc(g, Without(t, id), e);
      }
      DropSnoc(GroupIds(g, t), e.id, id);
    }
  }

  /** Removing an event that is the head of its group pops that queue and no other. */
  lemma WithoutHead<B>(g: Group, s: seq<Event<B>>, e: Event<B>)
    requires DistinctIds(s) && Find(s, GroupOf(e)) == Some(e)
    ensures GroupOf(e) == g ==>
              GroupIds(g, s) != [] && GroupIds(g, Without(s, e.id)) == GroupIds(g, s)[1..]
    ensures GroupOf(e) != g ==> GroupIds(g, Without(s, e.id)) == GroupIds(g, s)
  {
    FindIsHead(s, GroupOf(e));
    GroupIdsWithout(g, s, e.id);
    if GroupOf(e) == g {
      GroupIdsDistinct(g, s);
      DropHead(GroupIds(g, s));
    } else {
      GroupIdsMember(g, s, e.id);
      DropAbsent(GroupIds(g, s), e.id);
    }
  }

  lemma {:induction false} FindWithout<B>(s: seq<Event<B>>, id: nat, g: Group)
    requires Find(s, g).Some? ==> Find(s, g).value.id != id
    ensures Find(s, g).Some? ==> Find(Without(s, id), g) == Find(s, g)
  {
    if s != [] {
      var e := s[|s| - 1];
      var t := s[..|s| - 1];
      assert s == t + [e];
      FindAppend(t, [e], g);
      WithoutSnoc(t, e, id);
      FindWithout(t, id, g);
      if e.id != id {
        FindAppend(Without(t, id), [e], g);
      }
      assert Find([e], g) == if GroupOf(e) == g then Some(e) else None;
      if Find(t, g) == None && GroupOf(e) == g {
        NoneWithout(t, id, g);
      }
    }
  }

  lemma NoneWithout<B>(s: seq<Event<B>>, id: nat, g: Group)
    requires Find(s, g) == None
    ensures Find(Without(s, id), g) == None
  {
    FindIsHead(s, g);
    GroupIdsWithout(g, s, id);
    FindIsHead(Without(s, id), g);
  }

  lemma {:induction false} WithoutIds<B>(s: seq<Event<B>>, id: nat)
    ensures Ids(Without(s, id)) == Ids(s) - {id}
    ensures forall e :: e in Without(s, id) ==> e in s
  {
    if s != [] {
      var e := s[|s| - 1];
      var t := s[..|s| - 1];
      WithoutIds(t, id);
      assert s == t + [e];
      WithoutSnoc(t, e, id);
      IdsSnoc(t, e);
      IdsSnoc(Without(t, id), e);
    }
  }

  lemma NewIdKeepsDistinct<B>(s: seq<Event<B>>, e: Event<B>)
    ensures DistinctIds(s + [e]) <==> DistinctIds(s) && e.id !in Ids(s)
  {
    var t := s + [e];
    assert t[|s|] == e && forall k | 0 <= k < |s| :: t[k] == s[k];
    if DistinctIds(s) && e.id !in Ids(s) {
      assert forall k | 0 <= k < |s| :: s[k].id in Ids(s);
    }
  }

  lemma {:induction false} WithoutMembers<B>(s: seq<Event<B>>, id: nat)
    requires DistinctIds(s)
    ensures DistinctIds(Without(s, id))
    ensures Ids(Without(s, id)) == Ids(s) - {id}
    ensures forall e :: e in Without(s, id) ==> e in s
    ensures |Without(s, id)| == if id in Ids(s) then |s| - 1 else |s|
  {
    WithoutIds(s, id);
    if s != [] {
      var e := s[|s| - 1];
      var t := s[..|s| - 1];
      assert s == t + [e];
      NewIdKeepsDistinct(t, e);
      WithoutMembers(t, id);
      WithoutSnoc(t, e, id);
      NewIdKeepsDistinct(Without(t, id), e);
      IdsSnoc(t, e);
    }
  }

  lemma IdsSnoc<B>(s: seq<Event<B>>, e: Event<B>)
    ensures Ids(s + [e]) == Ids(s) + {e.id}
  {
    var t := s + [e];
    assert t[|s|].id in Ids(t);
    forall id | id in Ids(s) ensures id in Ids(t) {
      var k :| 0 <= k < |s| && s[k].id == id;
      assert t[k].id == id;
    }
    forall id | id in Ids(t) ensures id in Ids(s) + {e.id} {
      var k :| 0 <= k < |t| && t[k].id == id;
    }
  }

  /** Rescheduling changes one event in place: no id moves and no other head changes. */
  lemma {:induction false} GroupIdsUpdate<B>(g: Group, s: seq<Event<B>>, k: nat, e: Event<B>)
    requires k < |s| && e.id == s[k].id && e.instrument == s[k].instrument
    ensures GroupIds(g, s[k := e]) == GroupIds(g, s)
  {
    var t := s[k := e];
    if k < |s| - 1 {
      assert t[..|t| - 1] == s[..|s| - 1][k := e];
      GroupIdsUpdate(g, s[..|s| - 1], k, e);
    } else {
      assert t[..|t| - 1] == s[..|s| - 1];
    }
  }

  lemma UpdateIds<B>(s: seq<Event<B>>, k: nat, e: Event<B>)
    requires k < |s| && e.id == s[k].id
    ensures Ids(s[k := e]) == Ids(s)
    ensures DistinctIds(s) ==> DistinctIds(s[k := e])
  {
    var t := s[k := e];
    assert forall j | 0 <= j < |s| :: t[j].id == s[j].id;
    forall id ensures id in Ids(t) <==> id in Ids(s) {
      if id in Ids(t) {
        var j :| 0 <= j < |t| && t[j].id == id;
        assert s[j].id == id;
      }
      if id in Ids(s) {
        var j :| 0 <= j < |s| && s[j].id == id;
        assert t[j].id == id;
      }
    }
  }

  lemma {:induction false} FindUpdate<B>(s: seq<Event<B>>, k: nat, e: Event<B>, g: Group)
    requires DistinctIds(s) && k < |s| && e.id == s[k].id && e.instrument == s[k].instrument
    ensures Find(s[k := e], g) == if Find(s, g) == Some(s[k]) then Some(e) else Find(s, g)
  {
    if k == 0 {
      assert s[k := e][1..] == s[1..];
      if GroupOf(s[0]) != g {
        FindIsHead(s[1..], g);
      }
    } else {
      assert s[k := e][1..] == s[1..][k - 1 := e];
      assert DistinctIds(s[1..]);
      FindUpdate(s[1..], k - 1, e, g);
      assert s[1..][k - 1] == s[k];
      assert s[0].id != s[k].id;
    }
  }

  lemma IndexOfMember<B>(s: seq<Event<B>>, e: Event<B>)
    requires DistinctIds(s) && e in s
    ensures IndexOf(s, e.id) < |s| && s[IndexOf(s, e.id)] == e
  {
    var k :| 0 <= k < |s| && s[k] == e;
    var j := IndexOf(s, e.id);
    assert j == k;
  }

  // ------------------------------------------------ the list as a sum of groups

  /** Every event belongs to exactly one of the five groups. */
  lemma {:induction false} GroupDepthsSum<B>(s: seq<Event<B>>)
    ensures |s| == GroupDepth(s, Pair(EURUSD)) + GroupDepth(s, Pair(GBPUSD)) + GroupDepth(s, Pair(USDJPY))
                   + GroupDepth(s, Pair(AUDUSD)) + GroupDepth(s, Discovery)
  {
    if s != [] {
      GroupDepthsSum(s[..|s| - 1]);
      match GroupOf(s[|s| - 1]) {
        case Pair(EURUSD) =>
        case Pair(GBPUSD) =>
        case Pair(USDJPY) =>
        case Pair(AUDUSD) =>
        case Discovery =>
      }
    }
  }

  // ------------------------------------------------------------- stuttering

  /** A log with adjacent repeats removed. */
  function Collapse(s: seq<nat>): seq<nat> {
    if s == [] then []
    else
      var c := Collapse(s[..|s| - 1]);
      if c != [] && c[|c| - 1] == s[|s| - 1] then c else c + [s[|s| - 1]]
  }

  lemma CollapseSnoc(s: seq<nat>, id: nat)
    ensures Collapse(s + [id]) ==
              if Collapse(s) != [] && Collapse(s)[|Collapse(s)| - 1] == id then Collapse(s)
              else Collapse(s) + [id]
  {
    assert (s + [id])[..|s|] == s;
  }
}

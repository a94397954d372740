/** A collector that serves one document, for concrete runs. */
module SingleSource {
  import opened Wrappers
  import opened Instruments
  import opened CollectorModel
  import opened CollectorLaws
  import A = AdapterModel

  const PRICE := A.Decimal(1.25, 4)

  /** A EURUSD quote of a document. */
  function Sample(doc: nat, id: nat, conn: nat, sequence: int): Message {
    Message(id, EURUSD, doc, doc, conn, 0, Some(sequence), Some(PRICE), Some(PRICE), false)
  }

  const AT_ONCE := Clock(0, 0, 0, 0, 0)

  /** The only session is fresh and eligible for EURUSD, and nobody else holds that lease. */
  ghost predicate OneSource(s: Server, u: Session) {
    && Shaped(s) && s.col.sessions == [u]
    && u.lastMessage == 0 && u.observerReady && EURUSD in u.targets && u.targets[EURUSD] == READY
    && (s.col.active[EURUSD] == None || s.col.active[EURUSD] == Some(u.id))
  }

  lemma OneSourceHolds(cfg: Settings, s: Server, u: Session)
    requires OneSource(s, u) && cfg.staleAfter >= 0 && cfg.expiry >= 0
    ensures var s1 := Refresh(cfg, s, 0);
            OneSource(s1, u) && s1.col.active[EURUSD] == Some(u.id) && s1.col.adapter == s.col.adapter && s1.db == s.db
  {
    RefreshShapes(cfg, s, 0);
    assert [u][1..] == [];
    assert Expire(cfg, s.col, 0, [u]) == s.col;
    assert EligibleIds(cfg, [u], EURUSD, 0) == [u.id] by {
      assert EligibleIds(cfg, [], EURUSD, 0) == [];
    }
    assert Least([u.id]) == Some(u.id) by {
      assert [u.id][1..] == [];
    }
  }

  /** A document's observation on an empty or its own table makes it the holder. */
  lemma GreetedHolds(cfg: Settings, s: Server, u: Session, m: Message)
    requires cfg.staleAfter >= 0 && cfg.expiry >= 0
    requires (s == EMPTY || (OneSource(s, u) && u.id == m.session)) && m.instrument == EURUSD
    ensures var s1 := Greet(cfg, s, m, AT_ONCE);
            && |s1.col.sessions| == 1 && OneSource(s1, s1.col.sessions[0]) && s1.col.sessions[0].id == m.session
            && s1.col.active[EURUSD] == Some(m.session)
            && s1.col.adapter == s.col.adapter && s1.db == s.db
  {
    if s == EMPTY {
      RefreshShapes(cfg, s, 0);
    } else {
      OneSourceHolds(cfg, s, u);
    }
    var s0 := Refresh(cfg, s, 0);
    var v := Updated(s0.col.sessions, m.session, m.conn, 0, None, Some(EURUSD));
    PlaceShapes(s0, m.session, m.conn, 0, None, Some(EURUSD));
    assert Assigned(s0.col.sessions, v) == [v];
    var s2 := s0.(col := s0.col.(sessions := [v]));
    OneSourceHolds(cfg, s2, v);
    OneSourceHolds(cfg, Refresh(cfg, s2, 0), v);
  }
}

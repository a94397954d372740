/** What the outbox writes to extension storage and how it reads it back (parseEvent and
    parseStats in outbox.ts). */
module OutboxCodec {
  import opened Wrappers
  import opened Instruments
  import OutboxModel

  datatype Json =
    | Null
    | Bool(flag: bool)
    | Number(number: int)
    | Text(text: string)
    | Array(items: seq<Json>)
    | Object(fields: map<string, Json>)

  datatype Kind = VisibleQuote | DiscoveryFrame

  /** What `typeof` calls an object, null apart; an array has none of the properties read here. */
  type Body = j: Json | j.Object? || j.Array? witness Array([])

  datatype StoredEvent = StoredEvent(
    eventId: string, kind: Kind, instrument: Option<Instrument>, url: string,
    body: Body, attempts: int, nextAttemptAt: int)

  /** A property that is missing or null counts as absent for `??`. */
  function Field(fields: map<string, Json>, name: string): Option<Json> {
    if name in fields && fields[name] != Null then Some(fields[name]) else None
  }

  function Supported(v: Option<Json>): Option<Instrument> {
    if v.Some? && v.value.Text? then Named(v.value.text) else None
  }

  function FieldsOf(v: Option<Json>): map<string, Json> {
    if v.Some? && v.value.Object? then v.value.fields else map[]
  }

  /** The instrument a body names on its own. */
  function NamedByBody(body: Body): Option<Instrument> {
    var fields := FieldsOf(Some(body));
    var own := Field(fields, "instrument");
    Supported(if own.Some? then own else Field(FieldsOf(Field(fields, "payload")), "instrument"))
  }

  function ParseEvent(v: Json): Option<StoredEvent> {
    if !v.Object? then None
    else
      var f := v.fields;
      var id, kind, url, body := Field(f, "eventId"), Field(f, "kind"), Field(f, "url"), Field(f, "body");
      var attempts, next := Field(f, "attempts"), Field(f, "nextAttemptAt");
      if !(id.Some? && id.value.Text?)
         || (kind != Some(Text("visible_quote")) && kind != Some(Text("discovery")))
         || !(url.Some? && url.value.Text?)
         || !(body.Some? && (body.value.Object? || body.value.Array?))
         || !(attempts.Some? && attempts.value.Number?)
         || !(next.Some? && next.value.Number?)
      then None
      else
        var own := Field(f, "instrument");
        Some(StoredEvent(
          id.value.text,
          if kind == Some(Text("visible_quote")) then VisibleQuote else DiscoveryFrame,
          if own.Some? then Supported(own) else NamedByBody(body.value),
          url.value.text, body.value, attempts.value.number, next.value.number))
  }

  function Save(e: StoredEvent): Json {
    Object(map[
      "eventId" := Text(e.eventId),
      "kind" := Text(if e.kind.VisibleQuote? then "visible_quote" else "discovery"),
      "instrument" := if e.instrument.Some? then Text(Name(e.instrument.value)) else Null,
      "url" := Text(e.url),
      "body" := e.body,
      "attempts" := Number(e.attempts),
      "nextAttemptAt" := Number(e.nextAttemptAt)])
  }

  /** An event survives storage unchanged exactly when it names its instrument, or its body
      names none either; otherwise it comes back in the group its body names. */
  lemma EventRoundTrip(e: StoredEvent)
    ensures ParseEvent(Save(e)) == Some(e) <==> (e.instrument.Some? || NamedByBody(e.body) == None)
    ensures ParseEvent(Save(e)).Some?
    ensures e.instrument == None ==> ParseEvent(Save(e)).value.instrument == NamedByBody(e.body)
  {
    var f := Save(e).fields;
    assert Field(f, "eventId") == Some(Text(e.eventId));
    assert Field(f, "url") == Some(Text(e.url));
    assert Field(f, "body") == Some(e.body);
    assert Field(f, "attempts") == Some(Number(e.attempts));
    assert Field(f, "nextAttemptAt") == Some(Number(e.nextAttemptAt));
    assert Field(f, "kind") == Some(Text(if e.kind.VisibleQuote? then "visible_quote" else "discovery"));
    assert "visible_quote" != "discovery" by {
      assert |"visible_quote"| == 13 && |"discovery"| == 9;
    }
    if e.instrument.Some? {
      assert Field(f, "instrument") == Some(Text(Name(e.instrument.value)));
      NamedInverse(e.instrument.value);
    } else {
      assert Field(f, "instrument") == None;
    }
  }

  function LoadEvents(v: seq<Json>): seq<StoredEvent> {
    if v == [] then []
    else
      var e := ParseEvent(v[0]);
      (if e.Some? then [e.value] else []) + LoadEvents(v[1..])
  }

  function SaveEvents(s: seq<StoredEvent>): seq<Json> {
    if s == [] then [] else [Save(s[0])] + SaveEvents(s[1..])
  }

  predicate Keeps(e: StoredEvent) { e.instrument.Some? || NamedByBody(e.body) == None }

  lemma FirstRoundTrip(e: StoredEvent, rest: seq<StoredEvent>)
    ensures LoadEvents(SaveEvents([e] + rest)) == [ParseEvent(Save(e)).value] + LoadEvents(SaveEvents(rest))
    ensures ParseEvent(Save(e)).value == e <==> Keeps(e)
  {
    EventRoundTrip(e);
    assert ([e] + rest)[1..] == rest;
    assert SaveEvents([e] + rest) == [Save(e)] + SaveEvents(rest);
    assert ([Save(e)] + SaveEvents(rest))[1..] == SaveEvents(rest);
  }

  /** The whole list survives storage, in order, exactly when each of its events does. */
  lemma {:induction false} ListRoundTrip(s: seq<StoredEvent>)
    ensures LoadEvents(SaveEvents(s)) == s <==> forall k | 0 <= k < |s| :: Keeps(s[k])
    ensures |LoadEvents(SaveEvents(s))| == |s|
  {
    if s != [] {
      var head, rest := s[0], s[1..];
      assert s == [head] + rest;
      ListRoundTrip(rest);
      FirstRoundTrip(head, rest);
      var back := LoadEvents(SaveEvents(s));
      assert back[1..] == LoadEvents(SaveEvents(rest));
      assert forall k | 0 < k < |s| :: s[k] == rest[k - 1];
      assert (forall k | 0 <= k < |rest| :: Keeps(rest[k])) ==> forall k | 0 <= k < |s| :: Keeps(s[k]) || k == 0;
      assert back == s <==> back[0] == head && back[1..] == rest;
    }
  }

  /** The service worker's discovery bodies carry neither an instrument nor a payload field,
      and its quotes name their pair, so what the bridge enqueues survives storage. */
  lemma BridgeEventsSurvive(e: StoredEvent)
    requires e.kind.VisibleQuote? ==> e.instrument.Some?
    requires e.kind.DiscoveryFrame? ==>
               e.body.Object? && e.body.fields.Keys == {"event_id", "connection_id", "session_id", "frame"}
    ensures ParseEvent(Save(e)) == Some(e)
  {
    EventRoundTrip(e);
    if e.kind.DiscoveryFrame? {
      assert |"instrument"| == 10 && |"payload"| == 7;
      assert |"event_id"| == 8 && |"connection_id"| == 13 && |"session_id"| == 10 && |"frame"| == 5;
      assert "instrument"[0] != "session_id"[0];
      assert "instrument" !in e.body.fields && "payload" !in e.body.fields;
      assert FieldsOf(Field(e.body.fields, "payload")) == map[];
    }
  }

  // ------------------------------------------------------------------- stats

  function ReadCount(fields: map<string, Json>, name: string): nat {
    var v := Field(fields, name);
    if v.Some? && v.value.Number? && v.value.number >= 0 then v.value.number else 0
  }

  function ParsePair(f: map<string, Json>): OutboxModel.PairStats {
    OutboxModel.PairStats(
      ReadCount(f, "produced"), ReadCount(f, "acknowledged"), ReadCount(f, "retries"),
      ReadCount(f, "dropped"), ReadCount(f, "rejected"))
  }

  function ParseStats(v: Option<Json>): OutboxModel.Stats {
    var f := FieldsOf(v);
    var pairs := FieldsOf(Field(f, "byInstrument"));
    OutboxModel.Stats(ParsePair(f),
      map i: Instrument | i in SUPPORTED :: ParsePair(FieldsOf(Field(pairs, Name(i)))))
  }

  function SavePair(p: OutboxModel.PairStats): map<string, Json> {
    map["produced" := Number(p.produced), "acknowledged" := Number(p.acknowledged),
        "retries" := Number(p.retries), "dropped" := Number(p.dropped), "rejected" := Number(p.rejected)]
  }

  function SaveStats(s: OutboxModel.Stats): Json
    requires forall i: Instrument :: i in s.byInstrument
  {
    Object(SavePair(s.total)["byInstrument" := Object(map[
      "EURUSD" := Object(SavePair(s.byInstrument[EURUSD])),
      "GBPUSD" := Object(SavePair(s.byInstrument[GBPUSD])),
      "USDJPY" := Object(SavePair(s.byInstrument[USDJPY])),
      "AUDUSD" := Object(SavePair(s.byInstrument[AUDUSD]))])])
  }

  lemma CounterNames()
    ensures "produced" != "acknowledged" && "produced" != "retries" && "produced" != "dropped"
    ensures "produced" != "rejected" && "produced" != "byInstrument"
    ensures "acknowledged" != "retries" && "acknowledged" != "dropped" && "acknowledged" != "rejected"
    ensures "acknowledged" != "byInstrument" && "retries" != "dropped" && "retries" != "rejected"
    ensures "retries" != "byInstrument" && "dropped" != "rejected" && "dropped" != "byInstrument"
    ensures "rejected" != "byInstrument"
  {
    assert "produced"[0] == 'p' && "acknowledged"[0] == 'a' && "dropped"[0] == 'd' && "byInstrument"[0] == 'b';
    assert "retries"[2] == 't' && "rejected"[2] == 'j' && "retries"[0] == 'r' && "rejected"[0] == 'r';
  }

  lemma PairRoundTrip(p: OutboxModel.PairStats, f: map<string, Json>)
    requires forall name | name in SavePair(p) :: name in f && f[name] == SavePair(p)[name]
    ensures ParsePair(f) == p
  {
    CounterNames();
    var s := SavePair(p);
    assert "produced" in s && "acknowledged" in s && "retries" in s && "dropped" in s && "rejected" in s;
  }

  lemma InstrumentRoundTrip(s: OutboxModel.Stats, i: Instrument)
    requires OutboxModel.Complete(s)
    ensures var pairs := FieldsOf(Field(SaveStats(s).fields, "byInstrument"));
            ParsePair(FieldsOf(Field(pairs, Name(i)))) == s.byInstrument[i]
  {
    var pairs := FieldsOf(Field(SaveStats(s).fields, "byInstrument"));
    assert "EURUSD"[0] == 'E' && "GBPUSD"[0] == 'G' && "USDJPY"[0] == 'U' && "AUDUSD"[0] == 'A';
    assert Field(pairs, Name(i)) == Some(Object(SavePair(s.byInstrument[i])));
    PairRoundTrip(s.byInstrument[i], SavePair(s.byInstrument[i]));
  }

  lemma TotalRoundTrip(s: OutboxModel.Stats)
    requires OutboxModel.Complete(s)
    ensures ParsePair(SaveStats(s).fields) == s.total
  {
    CounterNames();
    PairRoundTrip(s.total, SaveStats(s).fields);
  }

  /** Every counter survives storage, in total and for each instrument. */
  lemma StatsRoundTrip(s: OutboxModel.Stats)
    requires OutboxModel.Complete(s)
    ensures ParseStats(Some(SaveStats(s))) == s
  {
    TotalRoundTrip(s);
    forall i: Instrument
      ensures i in SUPPORTED && ParseStats(Some(SaveStats(s))).byInstrument[i] == s.byInstrument[i]
    {
      RankInverse(i);
      InstrumentRoundTrip(s, i);
    }
    assert ParseStats(Some(SaveStats(s))).byInstrument == s.byInstrument;
  }

  /** Storage that holds no counters reads as all zero. */
  lemma MissingStatsAreZero()
    ensures ParseStats(None) == OutboxModel.EmptyStats()
    ensures ParseStats(Some(Null)) == OutboxModel.EmptyStats()
  {
    assert ParsePair(map[]) == OutboxModel.NO_STATS;
    assert FieldsOf(Field(map[], "byInstrument")) == map[];
    assert ParseStats(None).byInstrument == OutboxModel.EmptyStats().byInstrument;
  }

  // -------------------------------------------------------- what is dropped

  predicate HasText(f: map<string, Json>, name: string) { name in f && f[name].Text? }

  predicate HasNumber(f: map<string, Json>, name: string) { name in f && f[name].Number? }

  /** The first of these values that is there and not null, if it names a pair. */
  function FirstNamed(values: seq<Option<Json>>): Option<Instrument> {
    if values == [] then None
    else if values[0].Some? && values[0] != Some(Null) then
      if values[0].value.Text? then Named(values[0].value.text) else None
    else FirstNamed(values[1..])
  }

  function Raw(v: Option<Json>, name: string): Option<Json> {
    if v.Some? && v.value.Object? && name in v.value.fields then Some(v.value.fields[name]) else None
  }

  /** An entry read from storage is kept exactly when it has its six fields, each of its kind;
      its pair is the first named by the entry, its body, or the body's payload. */
  lemma ParsesExactlyWhen(v: Json)
    ensures ParseEvent(v).Some? <==>
              && v.Object? && HasText(v.fields, "eventId") && HasText(v.fields, "url")
              && HasText(v.fields, "kind") && v.fields["kind"].text in {"visible_quote", "discovery"}
              && "body" in v.fields && (v.fields["body"].Object? || v.fields["body"].Array?)
              && HasNumber(v.fields, "attempts") && HasNumber(v.fields, "nextAttemptAt")
    ensures ParseEvent(v).Some? ==>
              var e, f := ParseEvent(v).value, v.fields;
              && Text(e.eventId) == f["eventId"] && Text(e.url) == f["url"] && e.body == f["body"]
              && (e.kind.VisibleQuote? <==> f["kind"] == Text("visible_quote"))
              && Number(e.attempts) == f["attempts"] && Number(e.nextAttemptAt) == f["nextAttemptAt"]
              && var body := Some(f["body"]);
                 e.instrument == FirstNamed([Raw(Some(v), "instrument"), Raw(body, "instrument"),
                                             Raw(Raw(body, "payload"), "instrument")])
  {
    if ParseEvent(v).Some? {
      FirstOfThree(v.fields, v.fields["body"]);
    }
  }

  lemma FirstOfThree(f: map<string, Json>, body: Body)
    ensures var own := Field(f, "instrument");
            (if own.Some? then Supported(own) else NamedByBody(body))
            == FirstNamed([Raw(Some(Object(f)), "instrument"), Raw(Some(body), "instrument"),
                           Raw(Raw(Some(body), "payload"), "instrument")])
  {
    var a, b := Raw(Some(Object(f)), "instrument"), Raw(Some(body), "instrument");
    var c := Raw(Raw(Some(body), "payload"), "instrument");
    assert [a, b, c][1..] == [b, c] && [b, c][1..] == [c] && [c][1..] == [];
    assert FirstNamed([c]) == if c.Some? && c != Some(Null) then Supported(c) else FirstNamed([]);
    assert FirstNamed([b, c]) == if b.Some? && b != Some(Null) then Supported(b) else FirstNamed([c]);
    assert FieldsOf(Some(body)) == if body.Object? then body.fields else map[];
    assert c == Raw(Raw(Some(body), "payload"), "instrument");
  }
}

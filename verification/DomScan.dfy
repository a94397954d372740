/** Finding the quote rows of a page (dom-observer.ts), over an abstract document: connected
    elements with their visibility and normalized text, and the tables in document order. */
module DomScan {
  import opened Wrappers
  import opened Instruments

  datatype Element = Element(visible: bool, text: string)

  datatype Row = Row(id: nat, cells: seq<nat>)

  datatype Table = Table(id: nat, headers: seq<nat>, rows: seq<Row>)

  /** Only connected elements are listed. */
  datatype Page = Page(elements: map<nat, Element>, tables: seq<Table>)

  const MAX_TABLES := 32
  const MAX_ROWS := 512

  predicate Connected(p: Page, id: nat) { id in p.elements }

  predicate Visible(p: Page, id: nat) { id in p.elements && p.elements[id].visible }

  function TextOf(p: Page, id: nat): string {
    if id in p.elements then p.elements[id].text else ""
  }

  // -------------------------------------------------------------------- text

  function Shift(c: char, from: char, to: char, offset: int): char
    requires from <= to && 0 <= from as int + offset && to as int + offset < 128
  {
    if from <= c <= to then (c as int + offset) as char else c
  }

  function Lower(s: string): string {
    seq(|s|, k requires 0 <= k < |s| => Shift(s[k], 'A', 'Z', 32))
  }

  function Upper(s: string): string {
    seq(|s|, k requires 0 <= k < |s| => Shift(s[k], 'a', 'z', -32))
  }

  predicate Digits(s: string) {
    forall k | 0 <= k < |s| :: '0' <= s[k] <= '9'
  }

  function Value(s: string): nat
    requires Digits(s)
  {
    if s == [] then 0 else 10 * Value(s[..|s| - 1]) + (s[|s| - 1] as int - '0' as int)
  }

  function Power(n: nat): nat { if n == 0 then 1 else 10 * Power(n - 1) }

  lemma PowerIsPositive(n: nat)
    ensures Power(n) > 0
  {
  }

  /** Position of the first such character, or the length. */
  function At(s: string, c: char): (k: nat)
    ensures k <= |s| && c !in s[..k] && (k < |s| ==> s[k] == c)
  {
    if s == [] || s[0] == c then 0
    else
      var k := 1 + At(s[1..], c);
      assert s[..k] == [s[0]] + s[1..][..k - 1];
      k
  }

  /** A price text: digits, a dot, and between `least` and `most` digits. */
  predicate IsPrice(s: string, least: nat, most: nat) {
    var dot := At(s, '.');
    && 0 < dot < |s|
    && Digits(s[..dot]) && Digits(s[dot + 1..])
    && least <= |s| - dot - 1 <= most
  }

  /** The number its digits form, scaled by its decimals. */
  function PriceOf(s: string): real
    requires At(s, '.') < |s| && Digits(s[..At(s, '.')]) && Digits(s[At(s, '.') + 1..])
  {
    var dot := At(s, '.');
    PowerIsPositive(|s| - dot - 1);
    Value(s[..dot] + s[dot + 1..]) as real / Power(|s| - dot - 1) as real
  }

  /** The pattern a price text matches. */
  ghost predicate Written(s: string, whole: string, fraction: string, least: nat, most: nat) {
    s == whole + "." + fraction && whole != [] && Digits(whole) && Digits(fraction) && least <= |fraction| <= most
  }

  lemma DotFollows(whole: string, fraction: string)
    requires Digits(whole)
    ensures var s := whole + "." + fraction;
            At(s, '.') == |whole| && s[..|whole|] == whole && s[|whole| + 1..] == fraction
  {
    var s := whole + "." + fraction;
    assert s[|whole|] == '.';
  }

  lemma PriceExactlyWhen(s: string, least: nat, most: nat)
    ensures IsPrice(s, least, most) <==> exists whole, fraction :: Written(s, whole, fraction, least, most)
  {
    if IsPrice(s, least, most) {
      var dot := At(s, '.');
      assert s == s[..dot] + "." + s[dot + 1..];
      assert Written(s, s[..dot], s[dot + 1..], least, most);
    }
    if whole, fraction :| Written(s, whole, fraction, least, most) {
      DotFollows(whole, fraction);
    }
  }

  datatype Quote = Quote(bid: string, ask: string)

  /** The text two quotes are compared by. */
  function KeyOf(q: Quote): string { q.bid + ":" + q.ask }

  function QuoteFromCells(p: Page, i: Instrument, bidCell: nat, askCell: nat): Option<Quote> {
    var spec := SpecOf(i);
    if !Visible(p, bidCell) || !Visible(p, askCell) then None
    else
      var bid, ask := TextOf(p, bidCell), TextOf(p, askCell);
      if !IsPrice(bid, spec.decimalsMin, spec.decimalsMax) || !IsPrice(ask, spec.decimalsMin, spec.decimalsMax)
      then None
      else if PriceOf(bid) < spec.minPrice || PriceOf(ask) > spec.maxPrice || PriceOf(ask) < PriceOf(bid)
      then None
      else Some(Quote(bid, ask))
  }

  /** Exactly what is read from two cells: both visible, both well-written prices of the pair,
      in the registry's range and not crossed. */
  lemma ReadExactlyWhen(p: Page, i: Instrument, bidCell: nat, askCell: nat, q: Quote)
    ensures QuoteFromCells(p, i, bidCell, askCell) == Some(q) <==>
              && Visible(p, bidCell) && Visible(p, askCell)
              && q == Quote(TextOf(p, bidCell), TextOf(p, askCell))
              && IsPrice(q.bid, SpecOf(i).decimalsMin, SpecOf(i).decimalsMax)
              && IsPrice(q.ask, SpecOf(i).decimalsMin, SpecOf(i).decimalsMax)
              && SpecOf(i).minPrice <= PriceOf(q.bid) <= PriceOf(q.ask) <= SpecOf(i).maxPrice
  {
  }

  // ------------------------------------------------------------------ tables

  datatype Columns = Columns(symbol: nat, bid: nat, ask: nat)

  function Labels(p: Page, headers: seq<nat>): seq<string> {
    if headers == [] then []
    else (if Visible(p, headers[0]) then [Lower(TextOf(p, headers[0]))] else []) + Labels(p, headers[1..])
  }

  /** First position of a label, or the number of labels. */
  function LabelAt(labels: seq<string>, wanted: string): (k: nat)
    ensures k <= |labels|
    ensures k < |labels| ==> labels[k] == wanted
    ensures forall j | 0 <= j < k :: labels[j] != wanted
  {
    if labels == [] || labels[0] == wanted then 0 else 1 + LabelAt(labels[1..], wanted)
  }

  function ColumnsOf(p: Page, t: Table): Option<Columns> {
    var labels := Labels(p, t.headers);
    var symbol, bid, ask := LabelAt(labels, "symbol"), LabelAt(labels, "bid"), LabelAt(labels, "ask");
    if symbol < |labels| && bid < |labels| && ask < |labels| then Some(Columns(symbol, bid, ask)) else None
  }

  predicate Qualifies(p: Page, t: Table) {
    Visible(p, t.id) && ColumnsOf(p, t).Some?
  }

  datatype Target = Target(table: nat, row: nat, bidCell: nat, askCell: nat)

  datatype Candidate = Candidate(instrument: Instrument, target: Target, quote: Quote)

  /** A row and the table it was reached through. */
  datatype Reached = Reached(table: Table, row: Row)

  function CandidateOf(p: Page, r: Reached): Option<Candidate>
    requires ColumnsOf(p, r.table).Some?
  {
    var columns := ColumnsOf(p, r.table).value;
    if !Visible(p, r.row.id) then None
    else
      var cells := r.row.cells;
      var symbol := if columns.symbol < |cells| then Upper(TextOf(p, cells[columns.symbol])) else "";
      if Named(symbol) == None || columns.bid >= |cells| || columns.ask >= |cells| then None
      else
        var i := Named(symbol).value;
        var quote := QuoteFromCells(p, i, cells[columns.bid], cells[columns.ask]);
        if quote == None then None
        else
          Some(Candidate(i, Target(r.table.id, r.row.id, cells[columns.bid], cells[columns.ask]), quote.value))
  }

  // ------------------------------------------------- what the scan should see

  function Prefix<T>(n: nat, s: seq<T>): seq<T> {
    if |s| <= n then s else s[..n]
  }

  function RowsOf(t: Table, n: nat): seq<Reached>
    requires n <= |t.rows|
  {
    seq(n, k requires 0 <= k < n => Reached(t, t.rows[k]))
  }

  /** All rows of the qualifying tables, in order. */
  function AllRows(p: Page, tables: seq<Table>): seq<Reached> {
    if tables == [] then []
    else
      var t := tables[|tables| - 1];
      AllRows(p, tables[..|tables| - 1]) + (if Qualifies(p, t) then RowsOf(t, |t.rows|) else [])
  }

  /** The first 512 rows of the qualifying tables among the first 32. */
  function Scanned(p: Page): seq<Reached> {
    Prefix(MAX_ROWS, AllRows(p, Prefix(MAX_TABLES, p.tables)))
  }

  ghost predicate Usable(p: Page, rows: seq<Reached>) {
    forall r | r in rows :: ColumnsOf(p, r.table).Some?
  }

  /** One pair's candidates among these rows, in order. */
  function Matches(p: Page, rows: seq<Reached>, i: Instrument): seq<Candidate>
    requires Usable(p, rows)
  {
    if rows == [] then []
    else
      var last := rows[|rows| - 1];
      assert Usable(p, rows[..|rows| - 1]);
      var c := CandidateOf(p, last);
      Matches(p, rows[..|rows| - 1], i)
      + (if c.Some? && c.value.instrument == i then [c.value] else [])
  }

  datatype Discovery = Missing | Ambiguous | Found(target: Target)

  function Judge(candidates: seq<Candidate>): Discovery {
    if candidates == [] then Missing
    else
      var keys := set k | 0 <= k < |candidates| :: KeyOf(candidates[k].quote);
      if |keys| != 1 then Ambiguous else Found(candidates[0].target)
  }

  lemma {:induction false} AllRowsUsable(p: Page, tables: seq<Table>)
    ensures Usable(p, AllRows(p, tables))
  {
    if tables != [] {
      AllRowsUsable(p, tables[..|tables| - 1]);
    }
  }

  lemma ScannedUsable(p: Page)
    ensures Usable(p, Scanned(p))
  {
    AllRowsUsable(p, Prefix(MAX_TABLES, p.tables));
  }

  function Discovered(p: Page, i: Instrument): Discovery {
    ScannedUsable(p);
    Judge(Matches(p, Scanned(p), i))
  }

  // ---------------------------------------------------------------- the scan

  lemma MatchesSnoc(p: Page, rows: seq<Reached>, r: Reached, i: Instrument)
    requires Usable(p, rows) && ColumnsOf(p, r.table).Some?
    ensures Usable(p, rows + [r])
    ensures Matches(p, rows + [r], i) ==
              Matches(p, rows, i)
              + (if CandidateOf(p, r).Some? && CandidateOf(p, r).value.instrument == i
                 then [CandidateOf(p, r).value] else [])
  {
    assert (rows + [r])[..|rows|] == rows;
  }

  ghost predicate Collected(p: Page, rows: seq<Reached>, matches: map<Instrument, seq<Candidate>>) {
    Usable(p, rows) && forall i: Instrument :: i in matches && matches[i] == Matches(p, rows, i)
  }

  /** One visited row. */
  method VisitRow(p: Page, r: Reached, matches: map<Instrument, seq<Candidate>>, ghost rows: seq<Reached>)
    returns (after: map<Instrument, seq<Candidate>>)
    requires ColumnsOf(p, r.table).Some? && Collected(p, rows, matches)
    ensures Collected(p, rows + [r], after)
  {
    after := matches;
    var c := CandidateOf(p, r);
    if c.Some? {
      after := after[c.value.instrument := after[c.value.instrument] + [c.value]];
    }
    forall i: Instrument
      ensures Usable(p, rows + [r]) && i in after && after[i] == Matches(p, rows + [r], i)
    {
      MatchesSnoc(p, rows, r, i);
    }
  }

  lemma RowsNext(rows: seq<Reached>, t: Table, n: nat)
    requires n < |t.rows|
    ensures rows + RowsOf(t, n + 1) == (rows + RowsOf(t, n)) + [Reached(t, t.rows[n])]
  {
  }

  lemma RowsCut(rows: seq<Reached>, t: Table, n: nat)
    requires n <= |t.rows| && |rows| + n == MAX_ROWS
    ensures Prefix(MAX_ROWS, rows + RowsOf(t, |t.rows|)) == rows + RowsOf(t, n)
  {
    var all, some := rows + RowsOf(t, |t.rows|), rows + RowsOf(t, n);
    assert |some| == MAX_ROWS <= |all| && forall k | 0 <= k < MAX_ROWS :: all[k] == some[k];
    assert all[..MAX_ROWS] == some;
  }

  /** The rows of one qualifying table; gives up after the row limit. */
  method VisitTable(p: Page, t: Table, matches: map<Instrument, seq<Candidate>>, visited: nat, ghost rows: seq<Reached>)
    returns (after: map<Instrument, seq<Candidate>>, visitedRows: nat)
    requires ColumnsOf(p, t).Some? && Collected(p, rows, matches)
    requires visited == |rows| <= MAX_ROWS
    ensures visitedRows == Min(MAX_ROWS + 1, |rows + RowsOf(t, |t.rows|)|)
    ensures Collected(p, Prefix(MAX_ROWS, rows + RowsOf(t, |t.rows|)), after)
  {
    after, visitedRows := matches, visited;
    var n := 0;
    assert rows + RowsOf(t, 0) == rows;
    while n < |t.rows|
      invariant n <= |t.rows|
      invariant visitedRows == |rows| + n <= MAX_ROWS
      invariant Collected(p, rows + RowsOf(t, n), after)
    {
      visitedRows := visitedRows + 1;
      if visitedRows > MAX_ROWS {
        RowsCut(rows, t, n);
        return;
      }
      RowsNext(rows, t, n);
      after := VisitRow(p, Reached(t, t.rows[n]), after, rows + RowsOf(t, n));
      n := n + 1;
    }
  }

  lemma AllRowsNext(p: Page, tables: seq<Table>, n: nat)
    requires n < |tables|
    ensures AllRows(p, tables[..n + 1]) ==
              if Qualifies(p, tables[n]) then AllRows(p, tables[..n]) + RowsOf(tables[n], |tables[n].rows|)
              else AllRows(p, tables[..n])
  {
    assert tables[..n + 1][..n] == tables[..n];
  }

  /** The nested scan with both limits sees exactly the first 512 rows of the qualifying
      tables among the first 32. */
  method CollectCandidates(p: Page) returns (matches: map<Instrument, seq<Candidate>>)
    ensures Collected(p, Scanned(p), matches)
  {
    matches := Everywhere([]);
    var visitedRows := 0;
    var tables := Prefix(MAX_TABLES, p.tables);
    var n := 0;
    while n < |tables|
      invariant n <= |tables|
      invariant visitedRows == |AllRows(p, tables[..n])| <= MAX_ROWS
      invariant Collected(p, AllRows(p, tables[..n]), matches)
    {
      var t := tables[n];
      AllRowsNext(p, tables, n);
      if Visible(p, t.id) && ColumnsOf(p, t).Some? {
        ghost var rows := AllRows(p, tables[..n]);
        matches, visitedRows := VisitTable(p, t, matches, visitedRows, rows);
        if visitedRows > MAX_ROWS {
          CutShort(p, tables, n);
          break;
        }
        assert AllRows(p, tables[..n + 1]) == Prefix(MAX_ROWS, rows + RowsOf(t, |t.rows|));
      }
      n := n + 1;
    }
    assert tables[..|tables|] == tables;
  }

  method FindQuoteTargets(p: Page) returns (results: map<Instrument, Discovery>)
    ensures forall i: Instrument :: i in results && results[i] == Discovered(p, i)
  {
    var matches := CollectCandidates(p);
    results := map i: Instrument | i in matches :: Judge(matches[i]);
  }

  lemma CutShort(p: Page, tables: seq<Table>, n: nat)
    requires n < |tables| && Qualifies(p, tables[n])
    requires |AllRows(p, tables[..n]) + RowsOf(tables[n], |tables[n].rows|)| > MAX_ROWS
    ensures Prefix(MAX_ROWS, AllRows(p, tables[..n]) + RowsOf(tables[n], |tables[n].rows|))
            == Prefix(MAX_ROWS, AllRows(p, tables))
  {
    AllRowsNext(p, tables, n);
    AllRowsGrow(p, tables, n + 1);
  }

  /** More tables only add rows at the end. */
  lemma {:induction false} AllRowsGrow(p: Page, tables: seq<Table>, n: nat)
    requires n <= |tables|
    ensures AllRows(p, tables[..n]) <= AllRows(p, tables)
    ensures |AllRows(p, tables[..n])| >= MAX_ROWS ==>
              Prefix(MAX_ROWS, AllRows(p, tables)) == Prefix(MAX_ROWS, AllRows(p, tables[..n]))
    decreases |tables| - n
  {
    if n == |tables| {
      assert tables[..n] == tables;
    } else {
      assert tables[..n + 1][..n] == tables[..n];
      AllRowsGrow(p, tables, n + 1);
    }
  }

  // -------------------------------------------------------------- agreement

  lemma PriceHasNoColon(s: string, least: nat, most: nat)
    requires IsPrice(s, least, most)
    ensures ':' !in s
  {
    var dot := At(s, '.');
    forall k | 0 <= k < |s| ensures s[k] != ':' {
      if k < dot {
        assert s[..dot][k] == s[k];
      } else if k > dot {
        assert s[dot + 1..][k - dot - 1] == s[k];
      }
    }
  }

  /** Prices contain no colon, so equal keys mean equal quotes. */
  lemma KeysIdentifyQuotes(a: Quote, b: Quote)
    requires ':' !in a.bid && ':' !in b.bid && KeyOf(a) == KeyOf(b)
    ensures a == b
  {
    var s := KeyOf(a);
    assert s[..|a.bid|] == a.bid && s[|a.bid|] == ':' && s[|a.bid| + 1..] == a.ask;
    assert KeyOf(b)[..|b.bid|] == b.bid && KeyOf(b)[|b.bid|] == ':' && KeyOf(b)[|b.bid| + 1..] == b.ask;
  }

  /** Every candidate is a readable quote of its pair on a visible row. */
  ghost predicate Readable(p: Page, i: Instrument, c: Candidate) {
    && c.instrument == i
    && Visible(p, c.target.row)
    && QuoteFromCells(p, i, c.target.bidCell, c.target.askCell) == Some(c.quote)
    && ':' !in c.quote.bid
  }

  lemma {:induction false} MatchesAreReadable(p: Page, rows: seq<Reached>, i: Instrument)
    requires Usable(p, rows)
    ensures forall k | 0 <= k < |Matches(p, rows, i)| :: Readable(p, i, Matches(p, rows, i)[k])
  {
    if rows != [] {
      MatchesAreReadable(p, rows[..|rows| - 1], i);
      var c := CandidateOf(p, rows[|rows| - 1]);
      if c.Some? && c.value.instrument == i {
        PriceHasNoColon(c.value.quote.bid, SpecOf(i).decimalsMin, SpecOf(i).decimalsMax);
      }
    }
  }

  lemma SingletonSet(keys: set<string>, k: string)
    requires k in keys
    ensures |keys| == 1 <==> forall x | x in keys :: x == k
  {
    if forall x | x in keys :: x == k {
      assert keys == {k};
    } else {
      assert |keys - {k}| > 0;
      assert |keys| == |keys - {k}| + 1;
    }
    if |keys| == 1 {
      assert |keys - {k}| == 0;
      assert keys - {k} == {};
    }
  }

  lemma SameKeysSameQuotes(p: Page, i: Instrument, m: seq<Candidate>)
    requires m != [] && forall k | 0 <= k < |m| :: Readable(p, i, m[k])
    ensures Judge(m).Found? <==> forall k | 0 <= k < |m| :: m[k].quote == m[0].quote
  {
    var keys := set k | 0 <= k < |m| :: KeyOf(m[k].quote);
    assert KeyOf(m[0].quote) in keys;
    SingletonSet(keys, KeyOf(m[0].quote));
    forall k | 0 <= k < |m|
      ensures KeyOf(m[k].quote) in keys && (KeyOf(m[k].quote) == KeyOf(m[0].quote) ==> m[k].quote == m[0].quote)
    {
      assert Readable(p, i, m[k]) && Readable(p, i, m[0]);
      if KeyOf(m[k].quote) == KeyOf(m[0].quote) {
        KeysIdentifyQuotes(m[k].quote, m[0].quote);
      }
    }
  }

  /** A pair is found exactly when it has candidates in the scanned rows and they all show
      the same quote; the target is then the first of them. */
  lemma FoundWhenCandidatesAgree(p: Page, i: Instrument)
    ensures Usable(p, Scanned(p))
    ensures var m := Matches(p, Scanned(p), i);
            && (Discovered(p, i) == Missing <==> m == [])
            && (Discovered(p, i).Found? <==> m != [] && forall k | 0 <= k < |m| :: m[k].quote == m[0].quote)
            && (Discovered(p, i).Found? ==> Discovered(p, i).target == m[0].target && Readable(p, i, m[0]))
  {
    ScannedUsable(p);
    var m := Matches(p, Scanned(p), i);
    MatchesAreReadable(p, Scanned(p), i);
    if m != [] {
      SameKeysSameQuotes(p, i, m);
    }
  }
}

/** What the scan finds, stated from the page alone: tables, visible headers, rows and cells. */
module ScanLaws {
  import opened Wrappers
  import opened Instruments
  import opened DomScan

  // ------------------------------------------------------------------- words

  predicate Small(c: char) { 'a' <= c <= 'z' }

  predicate Capital(c: char) { 'A' <= c <= 'Z' }

  /** The same letter in either case, or the same other character. */
  predicate SameLetter(a: char, b: char) {
    || a == b
    || (Small(a) && Capital(b) && a as int == b as int + 32)
    || (Capital(a) && Small(b) && a as int + 32 == b as int)
  }

  predicate SameWord(s: string, word: string) {
    |s| == |word| && forall k | 0 <= k < |s| :: SameLetter(s[k], word[k])
  }

  lemma LowerIsWord(s: string, word: string)
    requires forall k | 0 <= k < |word| :: Small(word[k])
    ensures Lower(s) == word <==> SameWord(s, word)
  {
    var l := Lower(s);
    assert |l| == |s| && forall k | 0 <= k < |s| :: l[k] == Shift(s[k], 'A', 'Z', 32);
    if SameWord(s, word) {
      assert forall k | 0 <= k < |s| :: SameLetter(s[k], word[k]) && l[k] == word[k];
    }
    if l == word {
      assert forall k | 0 <= k < |s| :: l[k] == word[k];
    }
  }

  lemma UpperIsWord(s: string, word: string)
    requires forall k | 0 <= k < |word| :: Capital(word[k])
    ensures Upper(s) == word <==> SameWord(s, word)
  {
    var l := Upper(s);
    assert |l| == |s| && forall k | 0 <= k < |s| :: l[k] == Shift(s[k], 'a', 'z', -32);
    if SameWord(s, word) {
      assert forall k | 0 <= k < |s| :: SameLetter(s[k], word[k]) && l[k] == word[k];
    }
    if l == word {
      assert forall k | 0 <= k < |s| :: l[k] == word[k];
    }
  }

  lemma NameIsNamed(s: string, i: Instrument)
    ensures Named(Upper(s)) == Some(i) <==> SameWord(s, Name(i))
  {
    UpperIsWord(s, Name(i));
    NamedInverse(i);
    var u := Upper(s);
    if Named(u) == Some(i) {
      assert u == "EURUSD" || u == "GBPUSD" || u == "USDJPY" || u == "AUDUSD";
    }
  }

  // ----------------------------------------------------------------- headers

  /** How many of the first h headers are visible. */
  function VisibleBefore(p: Page, headers: seq<nat>, h: nat): nat
    requires h <= |headers|
  {
    if h == 0 then 0 else VisibleBefore(p, headers, h - 1) + (if Visible(p, headers[h - 1]) then 1 else 0)
  }

  /** Header h is visible and reads this word. */
  predicate Reads(p: Page, headers: seq<nat>, h: nat, word: string)
    requires h < |headers|
  {
    Visible(p, headers[h]) && SameWord(TextOf(p, headers[h]), word)
  }

  /** It is the first that does. */
  ghost predicate FirstReads(p: Page, headers: seq<nat>, h: nat, word: string) {
    h < |headers| && Reads(p, headers, h, word) && forall j: nat | j < h :: !Reads(p, headers, j, word)
  }

  /** Column k is headed by the first visible header that reads this word. */
  ghost predicate Heads(p: Page, headers: seq<nat>, word: string, k: nat) {
    exists h: nat :: FirstReads(p, headers, h, word) && k == VisibleBefore(p, headers, h)
  }

  ghost predicate Labelled(p: Page, headers: seq<nat>, word: string) {
    exists h: nat :: h < |headers| && Reads(p, headers, h, word)
  }

  lemma LabelIsRead(p: Page, headers: seq<nat>, h: nat, word: string)
    requires h < |headers| && forall k | 0 <= k < |word| :: Small(word[k])
    ensures Reads(p, headers, h, word) <==> Visible(p, headers[h]) && Lower(TextOf(p, headers[h])) == word
  {
    LowerIsWord(TextOf(p, headers[h]), word);
  }

  lemma {:induction false} LabelsOf(p: Page, headers: seq<nat>, n: nat)
    requires n <= |headers|
    ensures |Labels(p, headers[..n])| == VisibleBefore(p, headers, n)
    ensures n < |headers| && Visible(p, headers[n]) ==>
              Labels(p, headers[..n + 1]) == Labels(p, headers[..n]) + [Lower(TextOf(p, headers[n]))]
    ensures n < |headers| && !Visible(p, headers[n]) ==> Labels(p, headers[..n + 1]) == Labels(p, headers[..n])
  {
    if n > 0 {
      LabelsOf(p, headers, n - 1);
    }
    if n < |headers| {
      assert headers[..n + 1] == headers[..n] + [headers[n]];
      LabelsSnoc(p, headers[..n], headers[n]);
    }
  }

  lemma {:induction false} LabelsSnoc(p: Page, headers: seq<nat>, x: nat)
    ensures Labels(p, headers + [x]) ==
              Labels(p, headers) + (if Visible(p, x) then [Lower(TextOf(p, x))] else [])
  {
    if headers == [] {
      assert headers + [x] == [x] && [x][1..] == [];
    } else {
      assert (headers + [x])[0] == headers[0] && (headers + [x])[1..] == headers[1..] + [x];
      LabelsSnoc(p, headers[1..], x);
    }
  }

  /** Where a label is found among the first n headers. */
  lemma {:induction false} LabelAmong(p: Page, headers: seq<nat>, n: nat, word: string)
    requires n <= |headers| && forall k | 0 <= k < |word| :: Small(word[k])
    ensures word in Labels(p, headers[..n]) <==> exists h: nat :: h < n && Reads(p, headers, h, word)
  {
    if n > 0 {
      LabelAmong(p, headers, n - 1, word);
      LabelsOf(p, headers, n - 1);
      LabelIsRead(p, headers, n - 1, word);
    }
  }

  lemma {:induction false} LabelsConcat(p: Page, a: seq<nat>, b: seq<nat>)
    ensures Labels(p, a + b) == Labels(p, a) + Labels(p, b)
  {
    if b == [] {
      assert a + b == a;
    } else {
      var t := b[..|b| - 1];
      assert a + b == (a + t) + [b[|b| - 1]] && b == t + [b[|b| - 1]];
      LabelsConcat(p, a, t);
      LabelsSnoc(p, a + t, b[|b| - 1]);
      LabelsSnoc(p, t, b[|b| - 1]);
    }
  }

  lemma {:induction false} FirstReading(p: Page, headers: seq<nat>, n: nat, word: string) returns (h: nat)
    requires n <= |headers|
    ensures h <= n && (forall j: nat | j < h :: !Reads(p, headers, j, word))
    ensures h < n ==> Reads(p, headers, h, word)
  {
    if n == 0 {
      h := 0;
    } else {
      h := FirstReading(p, headers, n - 1, word);
      if h == n - 1 && !Reads(p, headers, h, word) {
        h := n;
      }
    }
  }

  lemma FirstIsLabel(p: Page, headers: seq<nat>, h: nat, word: string)
    requires FirstReads(p, headers, h, word) && forall k | 0 <= k < |word| :: Small(word[k])
    ensures var labels := Labels(p, headers);
            VisibleBefore(p, headers, h) < |labels| && LabelAt(labels, word) == VisibleBefore(p, headers, h)
  {
    var before, labels := Labels(p, headers[..h]), Labels(p, headers);
    LabelsOf(p, headers, h);
    LabelIsRead(p, headers, h, word);
    assert headers == headers[..h + 1] + headers[h + 1..];
    LabelsConcat(p, headers[..h + 1], headers[h + 1..]);
    assert labels == before + [word] + Labels(p, headers[h + 1..]);
    LabelAmong(p, headers, h, word);
    assert labels[|before|] == word;
    assert forall j | 0 <= j < |before| :: labels[j] == before[j] && before[j] in before;
  }

  /** A label's column is headed by the first visible header that reads it. */
  lemma HeadsExactlyWhen(p: Page, headers: seq<nat>, word: string, k: nat)
    requires forall j | 0 <= j < |word| :: Small(word[j])
    ensures Heads(p, headers, word, k) <==> LabelAt(Labels(p, headers), word) == k < |Labels(p, headers)|
  {
    if Heads(p, headers, word, k) {
      var h: nat :| FirstReads(p, headers, h, word) && k == VisibleBefore(p, headers, h);
      FirstIsLabel(p, headers, h, word);
    }
    var labels := Labels(p, headers);
    if LabelAt(labels, word) == k < |labels| {
      assert headers[..|headers|] == headers;
      LabelAmong(p, headers, |headers|, word);
      assert labels[k] in labels;
      var h := FirstReading(p, headers, |headers|, word);
      assert FirstReads(p, headers, h, word);
      FirstIsLabel(p, headers, h, word);
    }
  }

  /** The table is visible, and so are a symbol, a bid and an ask header of it. */
  ghost predicate Quoting(p: Page, t: Table) {
    && Visible(p, t.id)
    && Labelled(p, t.headers, "symbol") && Labelled(p, t.headers, "bid") && Labelled(p, t.headers, "ask")
  }

  lemma LabelledExactlyWhen(p: Page, headers: seq<nat>, word: string)
    requires forall j | 0 <= j < |word| :: Small(word[j])
    ensures LabelAt(Labels(p, headers), word) < |Labels(p, headers)| <==> Labelled(p, headers, word)
  {
    var labels := Labels(p, headers);
    assert headers[..|headers|] == headers;
    LabelAmong(p, headers, |headers|, word);
    if LabelAt(labels, word) < |labels| {
      assert labels[LabelAt(labels, word)] in labels;
    }
  }

  lemma QualifiesExactlyWhen(p: Page, t: Table)
    ensures Qualifies(p, t) <==> Quoting(p, t)
  {
    LabelledExactlyWhen(p, t.headers, "symbol");
    LabelledExactlyWhen(p, t.headers, "bid");
    LabelledExactlyWhen(p, t.headers, "ask");
  }

  // -------------------------------------------------------------------- rows

  /** The row shows the pair's name in the symbol column, and these are its bid and ask cells. */
  ghost predicate Shows(p: Page, t: Table, r: Row, i: Instrument, bidCell: nat, askCell: nat) {
    && Visible(p, t.id) && Visible(p, r.id)
    && (exists k: nat :: k < |r.cells| && Heads(p, t.headers, "symbol", k) && SameWord(TextOf(p, r.cells[k]), Name(i)))
    && (exists k: nat :: k < |r.cells| && Heads(p, t.headers, "bid", k) && bidCell == r.cells[k])
    && (exists k: nat :: k < |r.cells| && Heads(p, t.headers, "ask", k) && askCell == r.cells[k])
  }

  /** ... and they hold a readable quote of the pair. */
  ghost predicate Quotes(p: Page, t: Table, r: Row, i: Instrument, bidCell: nat, askCell: nat, q: Quote) {
    Shows(p, t, r, i, bidCell, askCell) && QuoteFromCells(p, i, bidCell, askCell) == Some(q)
  }

  lemma ColumnsAreHeads(p: Page, t: Table, symbol: nat, bid: nat, ask: nat)
    ensures ColumnsOf(p, t) == Some(Columns(symbol, bid, ask)) <==>
              Heads(p, t.headers, "symbol", symbol) && Heads(p, t.headers, "bid", bid) && Heads(p, t.headers, "ask", ask)
  {
    HeadsExactlyWhen(p, t.headers, "symbol", symbol);
    HeadsExactlyWhen(p, t.headers, "bid", bid);
    HeadsExactlyWhen(p, t.headers, "ask", ask);
  }

  lemma ShowsColumns(p: Page, t: Table, r: Row, i: Instrument, bidCell: nat, askCell: nat)
    requires Qualifies(p, t)
    ensures var c := ColumnsOf(p, t).value;
            Shows(p, t, r, i, bidCell, askCell) <==>
              && Visible(p, r.id) && c.symbol < |r.cells| && c.bid < |r.cells| && c.ask < |r.cells|
              && SameWord(TextOf(p, r.cells[c.symbol]), Name(i))
              && bidCell == r.cells[c.bid] && askCell == r.cells[c.ask]
  {
    var c := ColumnsOf(p, t).value;
    ColumnsAreHeads(p, t, c.symbol, c.bid, c.ask);
    OnlyHead(p, t.headers, "symbol", c.symbol);
    OnlyHead(p, t.headers, "bid", c.bid);
    OnlyHead(p, t.headers, "ask", c.ask);
  }

  lemma OnlyHead(p: Page, headers: seq<nat>, word: string, k: nat)
    requires Heads(p, headers, word, k) && forall j | 0 <= j < |word| :: Small(word[j])
    ensures forall j: nat :: Heads(p, headers, word, j) <==> j == k
  {
    HeadsExactlyWhen(p, headers, word, k);
    forall j: nat ensures Heads(p, headers, word, j) ==> j == k {
      HeadsExactlyWhen(p, headers, word, j);
    }
  }

  /** A row is a candidate exactly when it quotes a pair. */
  lemma CandidateExactlyWhen(p: Page, r: Reached, i: Instrument, bidCell: nat, askCell: nat, q: Quote)
    requires Qualifies(p, r.table)
    ensures CandidateOf(p, r) == Some(Candidate(i, Target(r.table.id, r.row.id, bidCell, askCell), q)) <==>
              Quotes(p, r.table, r.row, i, bidCell, askCell, q)
  {
    ShowsColumns(p, r.table, r.row, i, bidCell, askCell);
    var c := ColumnsOf(p, r.table).value;
    if c.symbol < |r.row.cells| {
      NameIsNamed(TextOf(p, r.row.cells[c.symbol]), i);
    }
  }

  // -------------------------------------------------------------- the region

  /** Rows of the quoting tables before table n. */
  ghost function RowsBefore(p: Page, n: nat): nat
    requires n <= |p.tables|
  {
    if n == 0 then 0
    else RowsBefore(p, n - 1) + (if Quoting(p, p.tables[n - 1]) then |p.tables[n - 1].rows| else 0)
  }

  /** Row k of table n is looked at: one of the first 32 tables, a quoting one, and one of the
      first 512 rows of these. */
  ghost predicate LookedAt(p: Page, n: nat, k: nat) {
    && n < |p.tables| && n < 32 && Quoting(p, p.tables[n]) && k < |p.tables[n].rows|
    && RowsBefore(p, n) + k < 512
  }

  lemma {:induction false} RowsCounted(p: Page, n: nat)
    requires n <= |p.tables|
    ensures |AllRows(p, p.tables[..n])| == RowsBefore(p, n)
  {
    if n > 0 {
      RowsCounted(p, n - 1);
      AllRowsNext(p, p.tables, n - 1);
      QualifiesExactlyWhen(p, p.tables[n - 1]);
    } else {
      assert p.tables[..0] == [];
    }
  }

  function Limit(p: Page): nat { Min(32, |p.tables|) }

  lemma ScannedIs(p: Page)
    ensures Scanned(p) == Prefix(512, AllRows(p, p.tables[..Limit(p)]))
  {
    assert |p.tables| <= 32 ==> p.tables[..|p.tables|] == p.tables;
  }

  lemma RowInPlace(rows: seq<Reached>, all: seq<Reached>, t: Table, k: nat)
    requires k < |t.rows| && rows + RowsOf(t, |t.rows|) <= all && |rows| + k < MAX_ROWS
    ensures |rows| + k < |Prefix(MAX_ROWS, all)| && Prefix(MAX_ROWS, all)[|rows| + k] == Reached(t, t.rows[k])
  {
    assert (rows + RowsOf(t, |t.rows|))[|rows| + k] == Reached(t, t.rows[k]);
  }

  lemma RowsGrow(p: Page, tables: seq<Table>, n: nat)
    requires n < |tables| && Qualifies(p, tables[n])
    ensures AllRows(p, tables[..n]) + RowsOf(tables[n], |tables[n].rows|) <= AllRows(p, tables)
  {
    AllRowsNext(p, tables, n);
    AllRowsGrow(p, tables, n + 1);
  }

  lemma RowsUpTo(p: Page, n: nat, tables: seq<Table>)
    requires n < |tables| && tables <= p.tables && Qualifies(p, p.tables[n])
    ensures AllRows(p, p.tables[..n]) + RowsOf(p.tables[n], |p.tables[n].rows|) <= AllRows(p, tables)
  {
    assert tables[..n] == p.tables[..n] && tables[n] == p.tables[n];
    RowsGrow(p, tables, n);
  }

  /** A row that is looked at is scanned, in its place. */
  lemma LookedAtIsScanned(p: Page, n: nat, k: nat)
    requires LookedAt(p, n, k)
    ensures var j := RowsBefore(p, n) + k;
            j < |Scanned(p)| && Scanned(p)[j] == Reached(p.tables[n], p.tables[n].rows[k])
  {
    ScannedIs(p);
    RowsCounted(p, n);
    QualifiesExactlyWhen(p, p.tables[n]);
    RowsUpTo(p, n, p.tables[..Limit(p)]);
    RowInPlace(AllRows(p, p.tables[..n]), AllRows(p, p.tables[..Limit(p)]), p.tables[n], k);
  }

  /** And every scanned row is one of them. */
  lemma {:induction false} RowIsSome(p: Page, j: nat, n: nat) returns (m: nat, k: nat)
    requires n <= |p.tables| && j < RowsBefore(p, n)
    ensures m < n && Quoting(p, p.tables[m]) && k < |p.tables[m].rows| && RowsBefore(p, m) + k == j
  {
    if j < RowsBefore(p, n - 1) {
      m, k := RowIsSome(p, j, n - 1);
    } else {
      m, k := n - 1, j - RowsBefore(p, n - 1);
    }
  }

  lemma ScannedIsLookedAt(p: Page, j: nat) returns (n: nat, k: nat)
    requires j < |Scanned(p)|
    ensures LookedAt(p, n, k) && j == RowsBefore(p, n) + k
    ensures Scanned(p)[j] == Reached(p.tables[n], p.tables[n].rows[k])
  {
    ScannedIs(p);
    RowsCounted(p, Limit(p));
    n, k := RowIsSome(p, j, Limit(p));
    LookedAtIsScanned(p, n, k);
  }

  // --------------------------------------------------------- what is discovered

  /** Row k of table n is looked at and quotes the pair. */
  ghost predicate Offered(p: Page, i: Instrument, n: nat, k: nat, bidCell: nat, askCell: nat, q: Quote) {
    LookedAt(p, n, k) && Quotes(p, p.tables[n], p.tables[n].rows[k], i, bidCell, askCell, q)
  }

  /** What each of these rows is. */
  function Read(p: Page, rows: seq<Reached>): seq<Option<Candidate>>
    requires Usable(p, rows)
  {
    seq(|rows|, k requires 0 <= k < |rows| => assert rows[k] in rows; CandidateOf(p, rows[k]))
  }

  lemma ReadSnoc(p: Page, rows: seq<Reached>, last: Reached)
    requires Usable(p, rows) && ColumnsOf(p, last.table).Some?
    ensures Usable(p, rows + [last])
    ensures Read(p, rows + [last]) == Read(p, rows) + [CandidateOf(p, last)]
  {
  }

  lemma {:induction false} MatchesMembers(p: Page, rows: seq<Reached>, i: Instrument, c: Candidate)
    requires Usable(p, rows)
    ensures c in Matches(p, rows, i) <==> Some(c) in Read(p, rows) && c.instrument == i
  {
    if rows != [] {
      var t, last := rows[..|rows| - 1], rows[|rows| - 1];
      assert rows == t + [last];
      MatchesMembers(p, t, i, c);
      MatchesSnoc(p, t, last, i);
      ReadSnoc(p, t, last);
    }
  }

  lemma {:induction false} FirstMatch(p: Page, rows: seq<Reached>, i: Instrument) returns (j: nat)
    requires Usable(p, rows) && Matches(p, rows, i) != []
    ensures j < |rows| && CandidateOf(p, rows[j]) == Some(Matches(p, rows, i)[0])
    ensures forall h | 0 <= h < j :: CandidateOf(p, rows[h]).None? || CandidateOf(p, rows[h]).value.instrument != i
  {
    var t, last := rows[..|rows| - 1], rows[|rows| - 1];
    assert rows == t + [last];
    MatchesSnoc(p, t, last, i);
    if Matches(p, t, i) != [] {
      j := FirstMatch(p, t, i);
    } else {
      j := |t|;
      forall h | 0 <= h < j ensures CandidateOf(p, rows[h]).None? || CandidateOf(p, rows[h]).value.instrument != i {
        if CandidateOf(p, rows[h]).Some? && CandidateOf(p, rows[h]).value.instrument == i {
          assert t[h] == rows[h] && Read(p, t)[h] == CandidateOf(p, rows[h]);
          MatchesMembers(p, t, i, CandidateOf(p, rows[h]).value);
        }
      }
    }
  }

  lemma OfferedIsCandidate(p: Page, i: Instrument, n: nat, k: nat, bidCell: nat, askCell: nat, q: Quote)
    requires LookedAt(p, n, k)
    ensures Usable(p, Scanned(p)) && RowsBefore(p, n) + k < |Scanned(p)|
    ensures Offered(p, i, n, k, bidCell, askCell, q) <==>
              CandidateOf(p, Scanned(p)[RowsBefore(p, n) + k])
              == Some(Candidate(i, Target(p.tables[n].id, p.tables[n].rows[k].id, bidCell, askCell), q))
  {
    ScannedUsable(p);
    LookedAtIsScanned(p, n, k);
    QualifiesExactlyWhen(p, p.tables[n]);
    CandidateExactlyWhen(p, Reached(p.tables[n], p.tables[n].rows[k]), i, bidCell, askCell, q);
  }

  lemma ReadIsMatch(p: Page, rows: seq<Reached>, i: Instrument, j: nat, c: Candidate)
    requires Usable(p, rows) && j < |rows| && CandidateOf(p, rows[j]) == Some(c) && c.instrument == i
    ensures c in Matches(p, rows, i)
  {
    assert Read(p, rows)[j] == Some(c);
    MatchesMembers(p, rows, i, c);
  }

  lemma LookedAtHasPlace(p: Page, n: nat, k: nat) returns (j: nat)
    requires LookedAt(p, n, k)
    ensures j < |Scanned(p)| && Scanned(p)[j] == Reached(p.tables[n], p.tables[n].rows[k])
  {
    LookedAtIsScanned(p, n, k);
    j := RowsBefore(p, n) + k;
  }

  /** What is offered is a match. */
  lemma OfferedIsMatch(p: Page, i: Instrument, n: nat, k: nat, bidCell: nat, askCell: nat, q: Quote)
      returns (c: Candidate)
    requires Offered(p, i, n, k, bidCell, askCell, q)
    ensures Usable(p, Scanned(p)) && c in Matches(p, Scanned(p), i) && c.quote == q
  {
    var r := Reached(p.tables[n], p.tables[n].rows[k]);
    var j := LookedAtHasPlace(p, n, k);
    ScannedUsable(p);
    QualifiesExactlyWhen(p, r.table);
    CandidateExactlyWhen(p, r, i, bidCell, askCell, q);
    c := Candidate(i, Target(r.table.id, r.row.id, bidCell, askCell), q);
    ReadIsMatch(p, Scanned(p), i, j, c);
  }

  /** And a scanned candidate is offered. */
  lemma CandidateIsOffered(p: Page, i: Instrument, j: nat) returns (n: nat, k: nat)
    requires Usable(p, Scanned(p)) && j < |Scanned(p)|
    requires CandidateOf(p, Scanned(p)[j]).Some? && CandidateOf(p, Scanned(p)[j]).value.instrument == i
    ensures var c := CandidateOf(p, Scanned(p)[j]).value;
            && Offered(p, i, n, k, c.target.bidCell, c.target.askCell, c.quote)
            && c.target.table == p.tables[n].id && c.target.row == p.tables[n].rows[k].id
            && j == RowsBefore(p, n) + k
  {
    n, k := ScannedIsLookedAt(p, j);
    var c := CandidateOf(p, Scanned(p)[j]).value;
    OfferedIsCandidate(p, i, n, k, c.target.bidCell, c.target.askCell, c.quote);
  }

  /** Something is offered for the pair. */
  ghost predicate SomeOffer(p: Page, i: Instrument) {
    exists n: nat, k: nat, bidCell: nat, askCell: nat, q :: Offered(p, i, n, k, bidCell, askCell, q)
  }

  /** All that is offered is this quote. */
  ghost predicate OnlyOffer(p: Page, i: Instrument, q: Quote) {
    forall n: nat, k: nat, bidCell: nat, askCell: nat, other | Offered(p, i, n, k, bidCell, askCell, other) :: other == q
  }

  /** The target is the first row that offers a quote of the pair, with its cells. */
  ghost predicate FirstOffer(p: Page, i: Instrument, t: Target) {
    exists n: nat, k: nat, q ::
      && Offered(p, i, n, k, t.bidCell, t.askCell, q)
      && t.table == p.tables[n].id && t.row == p.tables[n].rows[k].id
      && forall m: nat, h: nat, bidCell: nat, askCell: nat, other | Offered(p, i, m, h, bidCell, askCell, other) ::
           RowsBefore(p, n) + k <= RowsBefore(p, m) + h
  }

  lemma MatchIsOffered(p: Page, i: Instrument, c: Candidate) returns (n: nat, k: nat)
    requires Usable(p, Scanned(p)) && c in Matches(p, Scanned(p), i)
    ensures Offered(p, i, n, k, c.target.bidCell, c.target.askCell, c.quote)
  {
    MatchesMembers(p, Scanned(p), i, c);
    var j :| 0 <= j < |Scanned(p)| && Read(p, Scanned(p))[j] == Some(c);
    n, k := CandidateIsOffered(p, i, j);
  }

  lemma SomeMatch(p: Page, i: Instrument)
    requires Usable(p, Scanned(p))
    ensures Matches(p, Scanned(p), i) != [] <==> SomeOffer(p, i)
  {
    if Matches(p, Scanned(p), i) != [] {
      MatchIsSome(p, i, Matches(p, Scanned(p), i)[0]);
    }
    if SomeOffer(p, i) {
      OfferIsSome(p, i);
    }
  }

  lemma MatchIsSome(p: Page, i: Instrument, c: Candidate)
    requires Usable(p, Scanned(p)) && c in Matches(p, Scanned(p), i)
    ensures SomeOffer(p, i)
  {
    var n, k := MatchIsOffered(p, i, c);
  }

  lemma OfferIsSome(p: Page, i: Instrument)
    requires Usable(p, Scanned(p)) && SomeOffer(p, i)
    ensures Matches(p, Scanned(p), i) != []
  {
    var n: nat, k: nat, bidCell: nat, askCell: nat, q :| Offered(p, i, n, k, bidCell, askCell, q);
    var c := OfferedIsMatch(p, i, n, k, bidCell, askCell, q);
  }

  lemma OnlyMatch(p: Page, i: Instrument, q: Quote)
    requires Usable(p, Scanned(p))
    ensures (forall c | c in Matches(p, Scanned(p), i) :: c.quote == q) <==> OnlyOffer(p, i, q)
  {
    if forall c | c in Matches(p, Scanned(p), i) :: c.quote == q {
      forall n: nat, k: nat, bidCell: nat, askCell: nat, other | Offered(p, i, n, k, bidCell, askCell, other)
        ensures other == q
      {
        var c := OfferedIsMatch(p, i, n, k, bidCell, askCell, other);
      }
    }
    if OnlyOffer(p, i, q) {
      forall c | c in Matches(p, Scanned(p), i) ensures c.quote == q {
        var n, k := MatchIsOffered(p, i, c);
      }
    }
  }

  lemma FirstMatchIsFirst(p: Page, i: Instrument)
    requires Usable(p, Scanned(p)) && Matches(p, Scanned(p), i) != []
    ensures FirstOffer(p, i, Matches(p, Scanned(p), i)[0].target)
  {
    var c := Matches(p, Scanned(p), i)[0];
    var j := FirstMatch(p, Scanned(p), i);
    MatchesMembers(p, Scanned(p), i, c);
    assert c.instrument == i;
    var n, k := CandidateIsOffered(p, i, j);
    forall m: nat, h: nat, bidCell: nat, askCell: nat, other | Offered(p, i, m, h, bidCell, askCell, other)
      ensures RowsBefore(p, n) + k <= RowsBefore(p, m) + h
    {
      OfferedIsCandidate(p, i, m, h, bidCell, askCell, other);
    }
  }

  /** The whole scan, from the page alone. A pair is missing exactly when no row that is looked
      at quotes it, and found exactly when some do and all show the same bid and ask; its
      target is then the first of them. */
  lemma DiscoveredExactlyWhen(p: Page, i: Instrument)
    ensures Discovered(p, i) == Missing <==> !SomeOffer(p, i)
    ensures Discovered(p, i).Found? <==> SomeOffer(p, i) && exists q :: OnlyOffer(p, i, q)
    ensures Discovered(p, i).Found? ==> FirstOffer(p, i, Discovered(p, i).target)
  {
    FoundWhenCandidatesAgree(p, i);
    SomeMatch(p, i);
    if Matches(p, Scanned(p), i) != [] {
      FirstMatchIsFirst(p, i);
      OneQuote(p, i);
    }
  }

  lemma OneQuote(p: Page, i: Instrument)
    requires Usable(p, Scanned(p)) && Matches(p, Scanned(p), i) != []
    ensures var all := Matches(p, Scanned(p), i);
            (forall k | 0 <= k < |all| :: all[k].quote == all[0].quote) <==> exists q :: OnlyOffer(p, i, q)
  {
    var all := Matches(p, Scanned(p), i);
    OnlyMatch(p, i, all[0].quote);
    if q :| OnlyOffer(p, i, q) {
      OnlyMatch(p, i, q);
      assert forall k | 0 <= k < |all| :: all[k] in all;
    }
  }

  // ------------------------------------------------------------------ prices

  lemma ValueSnoc(s: string, c: char)
    requires Digits(s) && '0' <= c <= '9'
    ensures Digits(s + [c]) && Value(s + [c]) == 10 * Value(s) + (c as int - '0' as int)
  {
    assert (s + [c])[..|s|] == s;
  }

  /** The number with n zeros behind it. */
  function Shifted(v: nat, n: nat): nat { if n == 0 then v else 10 * Shifted(v, n - 1) }

  lemma {:induction false} ShiftedIsTimes(v: nat, n: nat)
    ensures Shifted(v, n) == v * Power(n)
  {
    if n > 0 {
      ShiftedIsTimes(v, n - 1);
      Associates(v, Power(n - 1));
    }
  }

  lemma Associates(v: int, w: int)
    ensures 10 * (v * w) == v * (10 * w)
  {
  }

  lemma {:induction false} ValueConcat(a: string, b: string)
    requires Digits(a) && Digits(b)
    ensures Digits(a + b) && Value(a + b) == Shifted(Value(a), |b|) + Value(b)
  {
    if b == [] {
      assert a + b == a;
    } else {
      var t, c := b[..|b| - 1], b[|b| - 1];
      ValueConcat(a, t);
      ValueSnoc(a + t, c);
      ValueSnoc(t, c);
      assert a + b == (a + t) + [c] && b == t + [c];
    }
  }

  lemma Divided(a: real, b: real, power: real)
    requires power > 0.0
    ensures (a * power + b) / power == a + b / power
  {
    assert b == (b / power) * power;
    assert a * power + b == (a + b / power) * power;
  }

  lemma PriceParts(s: string, whole: string, fraction: string)
    requires Digits(whole) && Digits(fraction) && |s| == |whole| + 1 + |fraction|
    requires At(s, '.') == |whole| && s[..|whole|] == whole && s[|whole| + 1..] == fraction
    ensures Digits(whole + fraction) && Power(|fraction|) > 0
    ensures PriceOf(s) == Value(whole + fraction) as real / Power(|fraction|) as real
  {
    ValueConcat(whole, fraction);
    PowerIsPositive(|fraction|);
  }

  lemma WholePlusFraction(n: nat, a: nat, power: nat, b: nat)
    requires power > 0 && n == a * power + b
    ensures n as real / power as real == a as real + b as real / power as real
  {
    assert n as real == a as real * power as real + b as real;
    Divided(a as real, b as real, power as real);
  }

  lemma PriceSum(s: string, whole: string, fraction: string)
    requires Digits(whole) && Digits(fraction) && |s| == |whole| + 1 + |fraction|
    requires At(s, '.') == |whole| && s[..|whole|] == whole && s[|whole| + 1..] == fraction
    ensures Power(|fraction|) > 0
    ensures PriceOf(s) == Value(whole) as real + Value(fraction) as real / Power(|fraction|) as real
  {
    PriceParts(s, whole, fraction);
    ValueConcat(whole, fraction);
    ShiftedIsTimes(Value(whole), |fraction|);
    WholePlusFraction(Value(whole + fraction), Value(whole), Power(|fraction|), Value(fraction));
  }

  /** A price text is the number it is written as: its whole part and its decimals. */
  lemma PriceIsDecimal(whole: string, fraction: string)
    requires Digits(whole) && Digits(fraction)
    ensures Power(|fraction|) > 0
    ensures var s := whole + "." + fraction;
            && At(s, '.') == |whole| && s[..|whole|] == whole && s[|whole| + 1..] == fraction
            && PriceOf(s) == Value(whole) as real + Value(fraction) as real / Power(|fraction|) as real
  {
    DotFollows(whole, fraction);
    PriceSum(whole + "." + fraction, whole, fraction);
  }

  /** The usual way to write a number. */
  function Numeral(n: nat): string {
    if n < 10 then [(n + '0' as int) as char] else Numeral(n / 10) + [(n % 10 + '0' as int) as char]
  }

  lemma {:induction false} NumeralHasItsValue(n: nat)
    ensures Digits(Numeral(n)) && Value(Numeral(n)) == n
  {
    if n < 10 {
      assert Value([]) == 0 && Numeral(n)[..0] == [];
    } else {
      NumeralHasItsValue(n / 10);
      assert Numeral(n)[..|Numeral(n)| - 1] == Numeral(n / 10);
    }
  }
}

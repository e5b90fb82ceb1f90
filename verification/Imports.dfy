/** CSV imports: the whole file is validated before anything is written. */
module Imports {
  import opened Common
  import opened Store
  import opened Ledger
  import opened Cleanup
  import opened Decimals

  const MAX_BYTES: nat := 262_144
  const MAX_ROWS: nat := 500
  const FIRST_INDEX: nat := 2

  /** What the CSV reader makes of one line. */
  datatype Line = Broken | Cells(values: seq<string>)

  datatype Error =
    | TooLarge | BadHeaders | TooManyRows | Malformed | NoRows | DuplicateIds
    | WrongColumns(index: nat) | InvalidRow(index: nat)

  datatype Result = Ok(rows: seq<Payload>) | Err(error: Error)

  /** The schema's verdict on a row's text fields: the parsed values, or nothing. */
  datatype Fields = Fields(extId: string, amount: string, currency: string, description: string, stamp: string)
  datatype Parsed = Parsed(amount: int, currency: string, description: string, occurredAt: Instant)

  /** The two library calls a row goes through: a plain date to midnight UTC, and the schema. */
  datatype Library = Library(midnight: string -> Option<string>, schema: Fields -> Option<Parsed>)

  /** The text of the file, as far as it matters: its size, its hash, and its lines. */
  datatype File = File(bytes: nat, digest: string, header: Option<Line>, lines: seq<Line>)

  // ---------------------------------------------------------------- derived identifiers

  function DerivedId(digest: string, index: nat): string { "csv:" + digest + ":" + Decimal(index) }

  /** Rows of one file never share a derived identifier. */
  lemma DerivedIdsDiffer(digest: string, i: nat, j: nat)
    requires DerivedId(digest, i) == DerivedId(digest, j)
    ensures i == j
  {
    var n := |"csv:" + digest + ":"|;
    assert DerivedId(digest, i)[n..] == Decimal(i) && DerivedId(digest, j)[n..] == Decimal(j);
    DecimalRoundTrip(i);
    DecimalRoundTrip(j);
  }

  /** Demo cleanup never removes a row imported under a derived identifier. */
  lemma ImportedRowsSurviveCleanup(d: Db, user: Id, x: Id, digest: string, index: nat)
    requires x in d.txs && d.txs[x].extId == DerivedId(digest, index)
    ensures x in CleanupUser(d, user).txs && CleanupUser(d, user).txs[x] == d.txs[x]
  {
    assert d.txs[x].extId[0] == 'c';
    OthersAreKept(d, user, x);
  }

  // ---------------------------------------------------------------- what a good file is

  const REQUIRED: set<string> := {"occurred_at", "description", "amount"}
  const ALLOWED: set<string> := REQUIRED + {"currency", "external_tx_id"}

  predicate GoodHeader(h: seq<string>) {
    (forall name | name in REQUIRED :: name in h) && (forall name | name in h :: name in ALLOWED) && Distinct(h)
  }

  function CellOf(header: seq<string>, cells: seq<string>, name: string): string
    requires |header| == |cells|
  {
    if header == [] then "" else if header[0] == name then cells[0] else CellOf(header[1..], cells[1..], name)
  }

  function Or(text: string, otherwise: string): string { if text != "" then text else otherwise }

  function Stamp(lib: Library, text: string): Option<string> {
    if |text| == 10 then lib.midnight(text) else Some(text)
  }

  function FieldsOf(digest: string, currency: string, header: seq<string>, cells: seq<string>, index: nat,
                    stamp: string): Fields
    requires |header| == |cells|
  {
    Fields(Or(CellOf(header, cells, "external_tx_id"), DerivedId(digest, index)), CellOf(header, cells, "amount"),
           Or(CellOf(header, cells, "currency"), currency), CellOf(header, cells, "description"), stamp)
  }

  /** The payload of one record, or the error it raises. */
  function RowOf(lib: Library, digest: string, currency: string, header: seq<string>, cells: seq<string>,
                 index: nat): (r: Option<Payload>)
    ensures r.Some? ==> |cells| == |header|
    ensures r.Some? ==> r.value.extId == Or(CellOf(header, cells, "external_tx_id"), DerivedId(digest, index))
  {
    if |cells| != |header| then None
    else
      var stamp := Stamp(lib, CellOf(header, cells, "occurred_at"));
      if stamp.None? then None
      else
        var fields := FieldsOf(digest, currency, header, cells, index, stamp.value);
        var parsed := lib.schema(fields);
        if parsed.None? then None
        else Some(Payload(fields.extId, parsed.value.amount, parsed.value.currency, parsed.value.description,
            parsed.value.occurredAt))
  }

  lemma {:induction false} CellAt(header: seq<string>, cells: seq<string>, j: nat)
    requires |header| == |cells| && Distinct(header) && j < |header|
    ensures CellOf(header, cells, header[j]) == cells[j]
    decreases |header|
  {
    if j > 0 {
      assert header[0] != header[j];
      CellAt(header[1..], cells[1..], j - 1);
    }
  }

  /** The text of a row under a column, if the file has that column. */
  predicate Under(header: seq<string>, cells: seq<string>, name: string, text: string) {
    |header| == |cells| && exists j :: 0 <= j < |header| && header[j] == name && cells[j] == text
  }

  lemma CellIsUnder(header: seq<string>, cells: seq<string>, name: string)
    requires |header| == |cells| && Distinct(header)
    ensures name in header ==> Under(header, cells, name, CellOf(header, cells, name))
    ensures name !in header ==> CellOf(header, cells, name) == ""
  {
    if name in header {
      var j :| 0 <= j < |header| && header[j] == name;
      CellAt(header, cells, j);
    } else {
      MissingColumn(header, cells, name);
    }
  }

  /** An optional column: the row's own text if it has one, else `otherwise`. */
  predicate UnderOr(header: seq<string>, cells: seq<string>, name: string, otherwise: string, text: string) {
    || (text != "" && Under(header, cells, name, text))
    || (text == otherwise && (name in header ==> Under(header, cells, name, "")))
  }

  /** What the schema is given for a row, column by column: a plain date stands for its midnight. */
  predicate ReadFrom(lib: Library, digest: string, currency: string, header: seq<string>, cells: seq<string>,
                     index: nat, fields: Fields, time: string) {
    && Under(header, cells, "amount", fields.amount) && Under(header, cells, "description", fields.description)
    && Under(header, cells, "occurred_at", time)
    && (if |time| == 10 then lib.midnight(time) == Some(fields.stamp) else fields.stamp == time)
    && UnderOr(header, cells, "currency", currency, fields.currency)
    && UnderOr(header, cells, "external_tx_id", DerivedId(digest, index), fields.extId)
  }

  lemma OptionalCell(header: seq<string>, cells: seq<string>, name: string, otherwise: string)
    requires |header| == |cells| && Distinct(header)
    ensures UnderOr(header, cells, name, otherwise, Or(CellOf(header, cells, name), otherwise))
  {
    CellIsUnder(header, cells, name);
  }

  /** Every part of a payload comes from its own column: the schema read amount, currency,
      description and time from the row's texts, and the external id is the row's or derived. */
  lemma PayloadComesFrom(lib: Library, digest: string, currency: string, header: seq<string>, cells: seq<string>,
                         index: nat)
    requires GoodHeader(header) && RowOf(lib, digest, currency, header, cells, index).Some?
    ensures var p := RowOf(lib, digest, currency, header, cells, index).value;
      exists fields, time :: ReadFrom(lib, digest, currency, header, cells, index, fields, time)
        && lib.schema(fields) == Some(Parsed(p.amount, p.currency, p.description, p.occurredAt))
        && p.extId == fields.extId
  {
    var time := CellOf(header, cells, "occurred_at");
    var fields := FieldsOf(digest, currency, header, cells, index, Stamp(lib, time).value);
    assert "amount" in REQUIRED && "description" in REQUIRED && "occurred_at" in REQUIRED;
    CellIsUnder(header, cells, "amount");
    CellIsUnder(header, cells, "description");
    CellIsUnder(header, cells, "occurred_at");
    OptionalCell(header, cells, "currency", currency);
    OptionalCell(header, cells, "external_tx_id", DerivedId(digest, index));
    assert ReadFrom(lib, digest, currency, header, cells, index, fields, time);
  }

  /** The records: blank lines do not count. */
  function Records(lines: seq<Line>): seq<Line> {
    if lines == [] then []
    else Records(lines[..|lines| - 1]) + if lines[|lines| - 1] == Cells([]) then [] else [lines[|lines| - 1]]
  }

  /** The records up to a point became `rows`, in order. */
  ghost predicate Converted(lib: Library, digest: string, currency: string, header: seq<string>, records: seq<Line>,
                            rows: seq<Payload>) {
    |rows| == |records|
    && forall i | 0 <= i < |records| ::
         records[i].Cells? && RowOf(lib, digest, currency, header, records[i].values, FIRST_INDEX + i) == Some(rows[i])
  }

  function ExtIds(rows: seq<Payload>): seq<string> { seq(|rows|, i requires 0 <= i < |rows| => rows[i].extId) }

  /** A file is good for `rows` when everything in it is. */
  ghost predicate GoodFile(lib: Library, currency: string, f: File, rows: seq<Payload>) {
    && f.bytes <= MAX_BYTES
    && f.header.Some? && f.header.value.Cells? && GoodHeader(f.header.value.values)
    && 1 <= |rows| <= MAX_ROWS
    && Converted(lib, f.digest, currency, f.header.value.values, Records(f.lines), rows)
    && Distinct(ExtIds(rows))
  }

  lemma NothingElseConverts(lib: Library, currency: string, f: File, rows: seq<Payload>, other: seq<Payload>)
    requires GoodFile(lib, currency, f, rows) && GoodFile(lib, currency, f, other)
    ensures rows == other
  {
    forall i | 0 <= i < |rows| ensures rows[i] == other[i] {
      assert Records(f.lines)[i].Cells?;
    }
  }

  // ---------------------------------------------------------------- the parser

  /** A record that stops the import, whatever follows it. */
  ghost predicate Stops(lib: Library, digest: string, currency: string, header: seq<string>, lines: seq<Line>) {
    var records := Records(lines);
    |records| > MAX_ROWS
    || exists i | 0 <= i < |records| ::
         records[i].Broken? || RowOf(lib, digest, currency, header, records[i].values, FIRST_INDEX + i).None?
  }

  lemma {:induction false} RecordsGrow(lines: seq<Line>, n: nat)
    requires n <= |lines|
    ensures Records(lines[..n]) <= Records(lines)
    decreases |lines|
  {
    if n < |lines| {
      RecordsGrow(lines[..|lines| - 1], n);
      assert lines[..|lines| - 1][..n] == lines[..n];
    } else {
      assert lines[..n] == lines;
    }
  }

  lemma StoppedIsBad(lib: Library, currency: string, f: File, n: nat, rows: seq<Payload>)
    requires n <= |f.lines| && f.header.Some? && f.header.value.Cells?
    requires Stops(lib, f.digest, currency, f.header.value.values, f.lines[..n])
    ensures !GoodFile(lib, currency, f, rows)
  {
    RecordsGrow(f.lines, n);
    var records := Records(f.lines[..n]);
    if |records| <= MAX_ROWS {
      var header := f.header.value.values;
      var i :| 0 <= i < |records| &&
        (records[i].Broken? || RowOf(lib, f.digest, currency, header, records[i].values, FIRST_INDEX + i).None?);
      assert Records(f.lines)[i] == records[i];
    }
  }

  lemma OneMoreLine(before: seq<Line>, line: Line)
    ensures Records(before + [line]) == Records(before) + if line == Cells([]) then [] else [line]
  {
    assert (before + [line])[..|before|] == before;
  }

  /** One line: another row, a blank to skip, or an error that stops the import. */
  method ReadLine(lib: Library, digest: string, currency: string, header: seq<string>, line: Line,
                  ghost before: seq<Line>, rows: seq<Payload>)
    returns (more: Result)
    requires Converted(lib, digest, currency, header, Records(before), rows) && |rows| <= MAX_ROWS
    ensures more.Ok? ==>
      Converted(lib, digest, currency, header, Records(before + [line]), more.rows) && |more.rows| <= MAX_ROWS
    ensures more.Err? ==>
      Stops(lib, digest, currency, header, before + [line]) && more.error != DuplicateIds && more.error != NoRows
  {
    OneMoreLine(before, line);
    if line == Cells([]) { return Ok(rows); }
    ghost var records := Records(before + [line]);
    assert records[|rows|] == line;
    if line.Broken? { return Err(Malformed); }
    if |rows| >= MAX_ROWS { return Err(TooManyRows); }
    var index := FIRST_INDEX + |rows|;
    assert index == FIRST_INDEX + |Records(before)|;
    if |line.values| != |header| { return Err(WrongColumns(index)); }
    var stamp := Stamp(lib, CellOf(header, line.values, "occurred_at"));
    if stamp.None? { return Err(Malformed); }
    var parsed := lib.schema(FieldsOf(digest, currency, header, line.values, index, stamp.value));
    if parsed.None? { return Err(InvalidRow(index)); }
    var row := RowOf(lib, digest, currency, header, line.values, index);
    OneMoreRow(lib, digest, currency, header, Records(before), line, rows, row.value);
    return Ok(rows + [row.value]);
  }

  lemma OneMoreRow(lib: Library, digest: string, currency: string, header: seq<string>, records: seq<Line>, line: Line,
                   rows: seq<Payload>, row: Payload)
    requires Converted(lib, digest, currency, header, records, rows) && line.Cells?
    requires RowOf(lib, digest, currency, header, line.values, FIRST_INDEX + |rows|) == Some(row)
    ensures Converted(lib, digest, currency, header, records + [line], rows + [row])
  {}

  /** Accepts exactly the good files, and then returns every record of the file. */
  method ParseCsv(lib: Library, currency: string, f: File) returns (r: Result)
    ensures r.Ok? ==> GoodFile(lib, currency, f, r.rows)
    ensures r.Err? ==> forall rows :: !GoodFile(lib, currency, f, rows)
    ensures r == Err(DuplicateIds) ==>
      f.header.Some? && f.header.value.Cells? && "external_tx_id" in f.header.value.values
  {
    if f.bytes > MAX_BYTES { return Err(TooLarge); }
    if f.header.None? { return Err(BadHeaders); }
    if f.header.value.Broken? { return Err(Malformed); }
    var header := f.header.value.values;
    if !GoodHeader(header) { return Err(BadHeaders); }
    var rows: seq<Payload> := [];
    for n := 0 to |f.lines|
      invariant Converted(lib, f.digest, currency, header, Records(f.lines[..n]), rows) && |rows| <= MAX_ROWS
    {
      var more := ReadLine(lib, f.digest, currency, header, f.lines[n], f.lines[..n], rows);
      assert f.lines[..n] + [f.lines[n]] == f.lines[..n + 1];
      if more.Err? {
        forall other ensures !GoodFile(lib, currency, f, other) { StoppedIsBad(lib, currency, f, n + 1, other); }
        return more;
      }
      rows := more.rows;
    }
    assert f.lines[..|f.lines|] == f.lines;
    if rows == [] { return Err(NoRows); }
    if !Distinct(ExtIds(rows)) {
      forall other ensures !GoodFile(lib, currency, f, other) {
        OnlyTheseRows(lib, currency, f, rows, other);
      }
      if "external_tx_id" !in header { DerivedNeverRepeat(lib, f.digest, currency, header, Records(f.lines), rows); }
      return Err(DuplicateIds);
    }
    r := Ok(rows);
  }

  lemma OnlyTheseRows(lib: Library, currency: string, f: File, rows: seq<Payload>, other: seq<Payload>)
    requires f.header.Some? && f.header.value.Cells?
    requires Converted(lib, f.digest, currency, f.header.value.values, Records(f.lines), rows)
             && !Distinct(ExtIds(rows))
    ensures !GoodFile(lib, currency, f, other)
  {
    if Converted(lib, f.digest, currency, f.header.value.values, Records(f.lines), other) {
      forall i | 0 <= i < |rows| ensures rows[i] == other[i] { assert Records(f.lines)[i].Cells?; }
      assert rows == other;
    }
  }

  lemma {:induction false} MissingColumn(header: seq<string>, cells: seq<string>, name: string)
    requires |header| == |cells| && name !in header
    ensures CellOf(header, cells, name) == ""
    decreases |header|
  {
    if header != [] { MissingColumn(header[1..], cells[1..], name); }
  }

  /** A file without identifiers of its own can never fail for duplicate ones. */
  lemma DerivedNeverRepeat(lib: Library, digest: string, currency: string, header: seq<string>, records: seq<Line>,
                           rows: seq<Payload>)
    requires "external_tx_id" !in header && Converted(lib, digest, currency, header, records, rows)
    ensures Distinct(ExtIds(rows))
  {
    forall i | 0 <= i < |rows| ensures rows[i].extId == DerivedId(digest, FIRST_INDEX + i) {
      assert records[i].Cells?;
      MissingColumn(header, records[i].values, "external_tx_id");
    }
    forall i, j | 0 <= i < j < |rows| ensures ExtIds(rows)[i] != ExtIds(rows)[j] {
      if rows[i].extId == rows[j].extId { DerivedIdsDiffer(digest, FIRST_INDEX + i, FIRST_INDEX + j); }
    }
  }

  // ---------------------------------------------------------------- what a good file looks like

  lemma {:induction false} NoDuplicates(s: seq<string>)
    ensures Distinct(s) <==> forall name :: multiset(s)[name] <= 1
    decreases |s|
  {
    if s != [] {
      var first, rest := s[0], s[1..];
      NoDuplicates(rest);
      assert s == [first] + rest;
      if Distinct(s) {
        assert forall i | 0 <= i < |rest| :: rest[i] == s[i + 1];
        assert first !in rest;
      }
      if forall name :: multiset(s)[name] <= 1 {
        assert multiset(s)[first] == 1 + multiset(rest)[first];
        assert first !in rest;
        assert forall name :: multiset(rest)[name] <= multiset(s)[name];
        assert Distinct(rest);
        forall i, j | 0 <= i < j < |s| ensures s[i] != s[j] {
          if i == 0 { assert s[j] in rest; } else { assert rest[i - 1] == s[i] && rest[j - 1] == s[j]; }
        }
      }
    }
  }

  /** A header is good exactly when time, description and amount come once each, currency and
      external id at most once, and nothing else at all. */
  lemma GoodHeaderIff(h: seq<string>)
    ensures GoodHeader(h) <==>
      && multiset(h)["occurred_at"] == 1 && multiset(h)["description"] == 1 && multiset(h)["amount"] == 1
      && multiset(h)["currency"] <= 1 && multiset(h)["external_tx_id"] <= 1
      && forall name | name in h :: name == "occurred_at" || name == "description" || name == "amount"
                                    || name == "currency" || name == "external_tx_id"
  {
    NoDuplicates(h);
    assert forall name :: multiset(h)[name] > 0 <==> name in h;
    if forall name | name in h :: name in ALLOWED {
      forall name ensures multiset(h)[name] <= 1 <==> (name in ALLOWED ==> multiset(h)[name] <= 1) {
        if name !in ALLOWED { assert name !in h; }
      }
    }
  }

  /** Records are counted and read as if blank lines were not there. */
  lemma {:induction false} BlankLinesDoNotCount(before: seq<Line>, behind: seq<Line>)
    ensures Records(before + [Cells([])] + behind) == Records(before + behind)
    decreases |behind|
  {
    if behind == [] {
      assert before + [Cells([])] + behind == before + [Cells([])] && before + behind == before;
      assert (before + [Cells([])])[..|before|] == before;
    } else {
      var init, last := behind[..|behind| - 1], behind[|behind| - 1];
      BlankLinesDoNotCount(before, init);
      var with, without := before + [Cells([])] + behind, before + behind;
      assert with[..|with| - 1] == before + [Cells([])] + init && without[..|without| - 1] == before + init;
    }
  }

  lemma {:induction false} OtherLinesAllCount(lines: seq<Line>)
    requires Cells([]) !in lines
    ensures Records(lines) == lines
    decreases |lines|
  {
    if lines != [] {
      OtherLinesAllCount(lines[..|lines| - 1]);
      assert lines == lines[..|lines| - 1] + [lines[|lines| - 1]];
    }
  }

  /** The limits of an accepted file: 256 KiB, and from one to 500 records, numbered from 2. */
  lemma GoodFileLimits(lib: Library, currency: string, f: File, rows: seq<Payload>)
    requires GoodFile(lib, currency, f, rows)
    ensures f.bytes <= 262_144 && 1 <= |rows| <= 500 && |rows| == |Records(f.lines)|
    ensures f.header.Some? && f.header.value.Cells?
    ensures forall i | 0 <= i < |rows| ::
      && Records(f.lines)[i].Cells?
      && RowOf(lib, f.digest, currency, f.header.value.values, Records(f.lines)[i].values, i + 2) == Some(rows[i])
  {}
}

/** The ledger export of the web application, and a reader that recovers it. */
module LedgerCsv {
  import opened Store

  // ---------- Writing ----------

  /** `value.replaceAll('"', '""')`. */
  function Escape(value: string): string {
    if value == "" then ""
    else (if value[0] == '"' then "\"\"" else [value[0]]) + Escape(value[1..])
  }

  function Cell(value: string): string {
    "\"" + Escape(value) + "\""
  }

  function Record(cells: seq<string>): string {
    if |cells| == 0 then "" else if |cells| == 1 then Cell(cells[0]) else Cell(cells[0]) + "," + Record(cells[1..])
  }

  function Csv(records: seq<seq<string>>): string {
    if |records| == 0 then ""
    else if |records| == 1 then Record(records[0])
    else Record(records[0]) + "\n" + Csv(records[1..])
  }

  datatype LedgerRow = LedgerRow(createdAt: string, paymentId: Option<string>, merchant: string, entryType: string,
                                 debit: string, credit: string, runningBalance: string, status: string,
                                 entryKey: string)

  const HEADERS := ["Timestamp", "Payment ID", "Merchant", "Entry Type", "Debit", "Credit", "Running Balance",
                    "Status", "Entry Key"]

  function CellsOf(row: LedgerRow): seq<string> {
    [row.createdAt, if row.paymentId.Some? then row.paymentId.value else "", row.merchant, row.entryType, row.debit,
     row.credit, row.runningBalance, row.status, row.entryKey]
  }

  /** `ledgerCsv`. */
  function LedgerText(rows: seq<LedgerRow>): string {
    Csv([HEADERS] + seq(|rows|, i requires 0 <= i < |rows| => CellsOf(rows[i])))
  }

  // ---------- Reading, after rules 5 to 7 of section 2 of RFC 4180, with LF between records ----------

  datatype Parsed<T> = Parsed(value: T, rest: string)

  /** A quoted field after its opening quote: a doubled quote stands for one, a single one ends it. */
  function ReadQuoted(s: string): Option<Parsed<string>>
    decreases |s|
  {
    if s == "" then None
    else if s[0] != '"' then
      var more := ReadQuoted(s[1..]);
      if more.None? then None else Some(Parsed([s[0]] + more.value.value, more.value.rest))
    else if |s| > 1 && s[1] == '"' then
      var more := ReadQuoted(s[2..]);
      if more.None? then None else Some(Parsed("\"" + more.value.value, more.value.rest))
    else Some(Parsed("", s[1..]))
  }

  lemma {:induction false} ReadQuotedShrinks(s: string)
    ensures ReadQuoted(s).Some? ==> |ReadQuoted(s).value.rest| < |s|
    decreases |s|
  {
    if s != "" && s[0] != '"' {
      ReadQuotedShrinks(s[1..]);
    } else if |s| > 1 && s[1] == '"' {
      ReadQuotedShrinks(s[2..]);
    }
  }

  function ReadRecord(s: string): Option<Parsed<seq<string>>>
    decreases |s|
  {
    if s == "" || s[0] != '"' then None
    else
      var cell := ReadQuoted(s[1..]);
      ReadQuotedShrinks(s[1..]);
      if cell.None? then None
      else if cell.value.rest == "" || cell.value.rest[0] != ',' then Some(Parsed([cell.value.value], cell.value.rest))
      else
        var more := ReadRecord(cell.value.rest[1..]);
        if more.None? then None else Some(Parsed([cell.value.value] + more.value.value, more.value.rest))
  }

  lemma {:induction false} ReadRecordShrinks(s: string)
    ensures ReadRecord(s).Some? ==> |ReadRecord(s).value.rest| < |s|
    decreases |s|
  {
    if s != "" && s[0] == '"' {
      ReadQuotedShrinks(s[1..]);
      var cell := ReadQuoted(s[1..]);
      if cell.Some? && cell.value.rest != "" && cell.value.rest[0] == ',' {
        ReadRecordShrinks(cell.value.rest[1..]);
      }
    }
  }

  function ReadCsv(s: string): Option<seq<seq<string>>>
    decreases |s|
  {
    var record := ReadRecord(s);
    ReadRecordShrinks(s);
    if record.None? then None
    else if record.value.rest == "" then Some([record.value.value])
    else if record.value.rest[0] != '\n' then None
    else
      var more := ReadCsv(record.value.rest[1..]);
      if more.None? then None else Some([record.value.value] + more.value)
  }

  // ---------- The round trip ----------

  predicate EndsField(rest: string) {
    rest == "" || rest[0] != '"'
  }

  lemma {:induction false} CellReadsBack(value: string, rest: string)
    requires EndsField(rest)
    ensures ReadQuoted(Escape(value) + "\"" + rest) == Some(Parsed(value, rest))
    decreases |value|
  {
    var s := Escape(value) + "\"" + rest;
    if value == "" {
      assert s == "\"" + rest;
      assert s[1..] == rest;
    } else {
      var tail := Escape(value[1..]) + "\"" + rest;
      CellReadsBack(value[1..], rest);
      assert value == [value[0]] + value[1..];
      if value[0] == '"' {
        assert s == "\"\"" + tail;
        assert s[2..] == tail;
      } else {
        assert s == [value[0]] + tail;
        assert s[1..] == tail;
      }
    }
  }

  predicate EndsRecord(rest: string) {
    rest == "" || rest[0] == '\n'
  }

  lemma FirstCellReadsBack(value: string, tail: string)
    requires EndsField(tail)
    ensures var s := Cell(value) + tail;
            && s[0] == '"' && ReadQuoted(s[1..]) == Some(Parsed(value, tail))
  {
    assert (Cell(value) + tail)[1..] == Escape(value) + "\"" + tail;
    CellReadsBack(value, tail);
  }

  lemma LastCellReadsBack(value: string, rest: string)
    requires EndsRecord(rest)
    ensures ReadRecord(Cell(value) + rest) == Some(Parsed([value], rest))
  {
    FirstCellReadsBack(value, rest);
  }

  lemma NextCellReadsBack(value: string, tail: string)
    requires ReadRecord(tail).Some?
    ensures ReadRecord(Cell(value) + ("," + tail))
         == Some(Parsed([value] + ReadRecord(tail).value.value, ReadRecord(tail).value.rest))
  {
    FirstCellReadsBack(value, "," + tail);
    assert ("," + tail)[1..] == tail;
  }

  lemma {:induction false} RecordReadsBack(cells: seq<string>, rest: string)
    requires |cells| > 0 && EndsRecord(rest)
    ensures ReadRecord(Record(cells) + rest) == Some(Parsed(cells, rest))
    decreases |cells|
  {
    if |cells| == 1 {
      LastCellReadsBack(cells[0], rest);
      assert cells == [cells[0]];
    } else {
      RecordReadsBack(cells[1..], rest);
      NextCellReadsBack(cells[0], Record(cells[1..]) + rest);
      RecordSplits(cells, rest);
      assert cells == [cells[0]] + cells[1..];
    }
  }

  lemma RecordSplits(cells: seq<string>, rest: string)
    requires |cells| > 1
    ensures Record(cells) + rest == Cell(cells[0]) + ("," + (Record(cells[1..]) + rest))
  {
    Regroup(Cell(cells[0]), Record(cells[1..]), rest);
  }

  lemma Regroup(a: string, b: string, c: string)
    ensures a + "," + b + c == a + ("," + (b + c))
  {
  }

  /** Whatever the cells contain - quotes, commas, line breaks - the reader recovers them. */
  lemma {:induction false} CsvReadsBack(records: seq<seq<string>>)
    requires |records| > 0 && forall i | 0 <= i < |records| :: |records[i]| > 0
    ensures ReadCsv(Csv(records)) == Some(records)
    decreases |records|
  {
    if |records| == 1 {
      assert Csv(records) == Record(records[0]) + "";
      RecordReadsBack(records[0], "");
      assert records == [records[0]];
    } else {
      var rest := "\n" + Csv(records[1..]);
      assert Csv(records) == Record(records[0]) + rest;
      RecordReadsBack(records[0], rest);
      assert rest[1..] == Csv(records[1..]);
      CsvReadsBack(records[1..]);
      assert records == [records[0]] + records[1..];
    }
  }

  /** The exported text determines the header and every row. */
  lemma LedgerTextReadsBack(rows: seq<LedgerRow>)
    ensures ReadCsv(LedgerText(rows))
         == Some([HEADERS] + seq(|rows|, i requires 0 <= i < |rows| => CellsOf(rows[i])))
  {
    CsvReadsBack([HEADERS] + seq(|rows|, i requires 0 <= i < |rows| => CellsOf(rows[i])));
  }

  /** Two exports with the same text have the same cells, row by row. */
  lemma LedgerTextIsUnique(rows: seq<LedgerRow>, others: seq<LedgerRow>)
    requires LedgerText(rows) == LedgerText(others)
    ensures |rows| == |others| && forall i | 0 <= i < |rows| :: CellsOf(rows[i]) == CellsOf(others[i])
  {
    LedgerTextReadsBack(rows);
    LedgerTextReadsBack(others);
    var a := seq(|rows|, i requires 0 <= i < |rows| => CellsOf(rows[i]));
    var b := seq(|others|, i requires 0 <= i < |others| => CellsOf(others[i]));
    assert a == ([HEADERS] + a)[1..] == ([HEADERS] + b)[1..] == b;
    forall i | 0 <= i < |rows| ensures CellsOf(rows[i]) == CellsOf(others[i]) {
      assert a[i] == b[i];
    }
  }

  // ---------- Columns by name ----------

  /** Where the header has this name. */
  function ColumnOf(header: seq<string>, name: string): (k: nat)
    ensures k <= |header| && (k < |header| ==> header[k] == name)
    ensures k == |header| ==> name !in header
  {
    if header == [] || header[0] == name then 0 else 1 + ColumnOf(header[1..], name)
  }

  /** The cell of a row below this header, in the column with this name. */
  function CellUnder(header: seq<string>, cells: seq<string>, name: string): Option<string> {
    var k := ColumnOf(header, name);
    if k < |header| && k < |cells| then Some(cells[k]) else None
  }

  lemma {:induction false} ColumnAt(header: seq<string>, k: nat)
    requires k < |header| && forall i | 0 <= i < k :: header[i] != header[k]
    ensures ColumnOf(header, header[k]) == k
  {
    if k > 0 {
      assert forall i | 0 <= i < k - 1 :: header[1..][i] == header[i + 1];
      ColumnAt(header[1..], k - 1);
    }
  }

  lemma HeadersDiffer(i: nat, k: nat)
    requires i < k < |HEADERS|
    ensures HEADERS[i] != HEADERS[k]
  {
    assert |HEADERS[i]| != |HEADERS[k]| || HEADERS[i][0] != HEADERS[k][0];
  }

  lemma HeaderIsAt(k: nat)
    requires k < |HEADERS|
    ensures ColumnOf(HEADERS, HEADERS[k]) == k
  {
    forall i | 0 <= i < k ensures HEADERS[i] != HEADERS[k] {
      HeadersDiffer(i, k);
    }
    ColumnAt(HEADERS, k);
  }

  /** Every value of a row is found below its own name. */
  predicate NamesItsCells(header: seq<string>, cells: seq<string>, row: LedgerRow) {
    && CellUnder(header, cells, "Timestamp") == Some(row.createdAt)
    && CellUnder(header, cells, "Payment ID") == (if row.paymentId.Some? then row.paymentId else Some(""))
    && CellUnder(header, cells, "Merchant") == Some(row.merchant)
    && CellUnder(header, cells, "Entry Type") == Some(row.entryType)
    && CellUnder(header, cells, "Debit") == Some(row.debit)
    && CellUnder(header, cells, "Credit") == Some(row.credit)
    && CellUnder(header, cells, "Running Balance") == Some(row.runningBalance)
    && CellUnder(header, cells, "Status") == Some(row.status)
    && CellUnder(header, cells, "Entry Key") == Some(row.entryKey)
  }

  lemma CellsAreNamed(row: LedgerRow)
    ensures NamesItsCells(HEADERS, CellsOf(row), row)
  {
    HeaderIsAt(0);
    HeaderIsAt(1);
    HeaderIsAt(2);
    HeaderIsAt(3);
    HeaderIsAt(4);
    HeaderIsAt(5);
    HeaderIsAt(6);
    HeaderIsAt(7);
    HeaderIsAt(8);
  }

  /** Read back, the export has one record for each row, with each value below its name in the header. */
  lemma ColumnsAreNamed(rows: seq<LedgerRow>)
    ensures var records := ReadCsv(LedgerText(rows));
            && records.Some? && |records.value| == |rows| + 1
            && records.value[0] == ["Timestamp", "Payment ID", "Merchant", "Entry Type", "Debit", "Credit",
                                    "Running Balance", "Status", "Entry Key"]
            && forall i | 0 <= i < |rows| :: NamesItsCells(records.value[0], records.value[i + 1], rows[i])
  {
    LedgerTextReadsBack(rows);
    forall i | 0 <= i < |rows| ensures NamesItsCells(HEADERS, CellsOf(rows[i]), rows[i]) {
      CellsAreNamed(rows[i]);
    }
  }
}

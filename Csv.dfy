/** The CSV text api/comprovantes/export.js writes: `csvEscape`, the comma-joined lines and
    the newline-joined document, together with an RFC 4180-style reader (with LF line
    breaks, where RFC 4180 writes CRLF) against which the writer is proved: reading the document back gives the
    header and, for each row, the text of its ten cells. */
module Csv {
  import opened Js

  /** The ten columns of the export, in order. */
  const Columns: seq<string> := ["id", "created_at", "transaction_id", "customer_name", "customer_cpf",
                                "customer_email", "customer_phone", "status", "file_url", "source"]

  /** The characters that make `csvEscape` quote a field: the class `[",\n]`. */
  predicate NeedsQuotes(s: string) {
    '"' in s || ',' in s || '\n' in s
  }

  /** `s.replace(/"/g, '""')`. */
  function Doubled(s: string): (r: string)
    ensures |r| >= |s|
  {
    if s == [] then []
    else (if s[0] == '"' then ['"', '"'] else [s[0]]) + Doubled(s[1..])
  }

  /** The text of a cell: "" for null and undefined, `String(value)` otherwise. */
  function Cell(v: Json): string {
    if v == JNull || v == JUndef then "" else ToStr(v)
  }

  /** A field's text as written: quoted, with inner quotes doubled, when it holds a quote, a
      comma or a line feed; as it is otherwise. */
  function Escaped(s: string): (r: string)
    ensures !NeedsQuotes(s) ==> r == s
    ensures NeedsQuotes(s) ==> |r| >= 2 && r[0] == '"' && r[|r| - 1] == '"'
  {
    if NeedsQuotes(s) then ['"'] + Doubled(s) + ['"'] else s
  }

  /** `csvEscape(value)`. */
  function CsvEscape(v: Json): (r: string)
    ensures v == JNull || v == JUndef ==> r == ""
  {
    if v == JNull || v == JUndef then ""
    else
      var str := ToStr(v);
      if NeedsQuotes(str) then ['"'] + Doubled(str) + ['"'] else str
  }

  /** `csvEscape` is the RFC 4180-style escape of the cell's text. */
  lemma CsvEscapeIsEscapedCell(v: Json)
    ensures CsvEscape(v) == Escaped(Cell(v))
  {
  }

  /** A carriage return alone does not cause quoting (section 2 of RFC 4180 asks for quotes
      around line breaks, which it writes as CRLF). */
  lemma CarriageReturnNotQuoted(s: string)
    requires !NeedsQuotes(s)
    ensures CsvEscape(JStr(s + "\r")) == s + "\r"
  {
    assert '"' !in "\r" && ',' !in "\r" && '\n' !in "\r";
    assert !NeedsQuotes(s + "\r");
  }

  /** `parts.join(sep)`. */
  function Join(parts: seq<string>, sep: char): string {
    if parts == [] then ""
    else if |parts| == 1 then parts[0]
    else parts[0] + [sep] + Join(parts[1..], sep)
  }

  /** `row[key]` on a result row. */
  function Field(row: map<string, Json>, key: string): Json {
    if key in row then row[key] else JUndef
  }

  /** The line of one result row: each column's cell, escaped, joined by commas. */
  function Line(columns: seq<string>, row: map<string, Json>): string {
    Join(seq(|columns|, i requires 0 <= i < |columns| => CsvEscape(Field(row, columns[i]))), ',')
  }

  /** `result.rows.map(...)`: each row's line. */
  function RowLines(columns: seq<string>, rows: seq<map<string, Json>>): (r: seq<string>)
    ensures |r| == |rows| && forall i :: 0 <= i < |rows| ==> r[i] == Line(columns, rows[i])
  {
    if rows == [] then [] else [Line(columns, rows[0])] + RowLines(columns, rows[1..])
  }

  /** The document: the column line, then one line per row, joined by line feeds. */
  function CsvText(columns: seq<string>, rows: seq<map<string, Json>>): string {
    Join([Join(columns, ',')] + RowLines(columns, rows), '\n')
  }

  /** The texts of a row's cells, in column order. */
  function Cells(columns: seq<string>, row: map<string, Json>): (r: seq<string>)
    ensures |r| == |columns| && forall i :: 0 <= i < |columns| ==> r[i] == Cell(Field(row, columns[i]))
  {
    seq(|columns|, i requires 0 <= i < |columns| => Cell(Field(row, columns[i])))
  }

  /** Each row's cell texts. */
  function RowCells(columns: seq<string>, rows: seq<map<string, Json>>): (r: seq<seq<string>>)
    ensures |r| == |rows| && forall i :: 0 <= i < |rows| ==> r[i] == Cells(columns, rows[i])
  {
    if rows == [] then [] else [Cells(columns, rows[0])] + RowCells(columns, rows[1..])
  }

  // ---------------------------------------------------------------------------------
  // Reading it back: an RFC 4180-style reader whose records end at LF

  /** The rest of a quoted field after its opening quote: its value and the text after the
      closing quote, or None when the quote is never closed. */
  function QuotedRest(t: string): (r: Option<(string, string)>)
    ensures r.Some? ==> |r.value.1| < |t|
  {
    if t == [] then None
    else if t[0] == '"' then
      if |t| >= 2 && t[1] == '"' then
        match QuotedRest(t[2..])
        case None => None
        case Some(p) => Some((['"'] + p.0, p.1))
      else Some(([], t[1..]))
    else
      match QuotedRest(t[1..])
      case None => None
      case Some(p) => Some(([t[0]] + p.0, p.1))
  }

  /** An unquoted field: the text up to the next comma or line feed. */
  function PlainField(t: string): (r: (string, string))
    ensures r.0 + r.1 == t
  {
    if t == [] || t[0] == ',' || t[0] == '\n' then ([], t)
    else
      var p := PlainField(t[1..]);
      ([t[0]] + p.0, p.1)
  }

  /** One field at the start of `t`: its value and the text after it. */
  function ReadField(t: string): (r: Option<(string, string)>)
    ensures r.Some? ==> |r.value.1| <= |t|
  {
    if t != [] && t[0] == '"' then QuotedRest(t[1..]) else Some(PlainField(t))
  }

  /** A record read off the front of a text: its fields, and the text after its line feed
      (None when the record ends the text). */
  datatype Cut = Cut(fields: seq<string>, next: Option<string>)

  function ReadRecord(t: string): (r: Option<Cut>)
    ensures r.Some? && r.value.next.Some? ==> |r.value.next.value| < |t|
    decreases |t|
  {
    match ReadField(t)
    case None => None
    case Some(f) =>
      if f.1 == [] then Some(Cut([f.0], None))
      else if f.1[0] == '\n' then Some(Cut([f.0], Some(f.1[1..])))
      else if f.1[0] == ',' then
        match ReadRecord(f.1[1..])
        case None => None
        case Some(c) => Some(Cut([f.0] + c.fields, c.next))
      else None
  }

  /** The records of a text, or None when it is not well formed. */
  function ReadRecords(t: string): Option<seq<seq<string>>>
    decreases |t|
  {
    match ReadRecord(t)
    case None => None
    case Some(c) =>
      match c.next
      case None => Some([c.fields])
      case Some(rest) =>
        match ReadRecords(rest)
        case None => None
        case Some(rs) => Some([c.fields] + rs)
  }

  /** Where a field may end: at the end of the text, a comma or a line feed. */
  predicate Boundary(rest: string) {
    rest == [] || rest[0] == ',' || rest[0] == '\n'
  }

  lemma {:induction false} QuotedRestOfDoubled(s: string, rest: string)
    requires Boundary(rest)
    ensures QuotedRest(Doubled(s) + ['"'] + rest) == Some((s, rest))
    decreases |s|
  {
    var t := Doubled(s) + ['"'] + rest;
    if s == [] {
      assert t == ['"'] + rest;
      assert t[1..] == rest;
    } else {
      QuotedRestOfDoubled(s[1..], rest);
      var inner := Doubled(s[1..]) + ['"'] + rest;
      if s[0] == '"' {
        assert t == ['"', '"'] + inner;
        assert t[2..] == inner;
        assert s == ['"'] + s[1..];
      } else {
        assert t == [s[0]] + inner;
        assert t[1..] == inner;
        assert s == [s[0]] + s[1..];
      }
    }
  }

  lemma {:induction false} PlainFieldOf(s: string, rest: string)
    requires ',' !in s && '\n' !in s && Boundary(rest)
    ensures PlainField(s + rest) == (s, rest)
    decreases |s|
  {
    if s == [] {
      assert s + rest == rest;
    } else {
      PlainFieldOf(s[1..], rest);
      assert (s + rest)[1..] == s[1..] + rest;
      assert s == [s[0]] + s[1..];
    }
  }

  /** A quoted field followed by a boundary reads back as the original text. */
  lemma ReadQuotedField(s: string, rest: string)
    requires NeedsQuotes(s) && Boundary(rest)
    ensures ReadField(Escaped(s) + rest) == Some((s, rest))
  {
    var t := Escaped(s) + rest;
    var inner := Doubled(s) + ['"'] + rest;
    assert t == ['"'] + inner;
    assert t[0] == '"' && t[1..] == inner;
    QuotedRestOfDoubled(s, rest);
  }

  /** So does a field written as it is. */
  lemma ReadPlainField(s: string, rest: string)
    requires !NeedsQuotes(s) && Boundary(rest)
    ensures ReadField(Escaped(s) + rest) == Some((s, rest))
  {
    PlainFieldOf(s, rest);
    if s != [] {
      assert (s + rest)[0] == s[0];
    }
  }

  /** An escaped field followed by a boundary reads back as the original text. */
  lemma ReadEscapedField(s: string, rest: string)
    requires Boundary(rest)
    ensures ReadField(Escaped(s) + rest) == Some((s, rest))
  {
    if NeedsQuotes(s) {
      ReadQuotedField(s, rest);
    } else {
      ReadPlainField(s, rest);
    }
  }

  /** Each field escaped. */
  function EscapeAll(fields: seq<string>): (r: seq<string>)
    ensures |r| == |fields| && forall i :: 0 <= i < |fields| ==> r[i] == Escaped(fields[i])
  {
    if fields == [] then [] else [Escaped(fields[0])] + EscapeAll(fields[1..])
  }

  /** The text a line is followed by: a line feed and the next records, or nothing. */
  function Tail(next: Option<string>): string {
    if next.None? then "" else ['\n'] + next.value
  }

  /** A line of escaped fields reads back as those fields. */
  lemma {:induction false} ReadEscapedLine(fields: seq<string>, next: Option<string>)
    requires fields != []
    ensures ReadRecord(Join(EscapeAll(fields), ',') + Tail(next)) == Some(Cut(fields, next))
    decreases |fields|
  {
    var t := Join(EscapeAll(fields), ',') + Tail(next);
    if |fields| == 1 {
      assert t == Escaped(fields[0]) + Tail(next);
      ReadEscapedField(fields[0], Tail(next));
      if next.Some? {
        assert Tail(next)[1..] == next.value;
      }
      assert fields == [fields[0]];
    } else {
      var more := fields[1..];
      var after := [','] + (Join(EscapeAll(more), ',') + Tail(next));
      assert t == Escaped(fields[0]) + after;
      ReadEscapedField(fields[0], after);
      ReadEscapedLine(more, next);
      assert after[1..] == Join(EscapeAll(more), ',') + Tail(next);
      assert fields == [fields[0]] + more;
    }
  }

  /** Each record written as a line. */
  function Lines(records: seq<seq<string>>): (r: seq<string>)
    ensures |r| == |records| && forall i :: 0 <= i < |records| ==> r[i] == Join(EscapeAll(records[i]), ',')
  {
    if records == [] then [] else [Join(EscapeAll(records[0]), ',')] + Lines(records[1..])
  }

  /** Records of escaped fields, each with at least one field, read back as themselves. */
  lemma {:induction false} ReadWritten(records: seq<seq<string>>)
    requires records != []
    requires forall i :: 0 <= i < |records| ==> records[i] != []
    ensures ReadRecords(Join(Lines(records), '\n')) == Some(records)
    decreases |records|
  {
    var line := Join(EscapeAll(records[0]), ',');
    if |records| == 1 {
      ReadEscapedLine(records[0], None);
      LastLine(records, line);
    } else {
      var more := records[1..];
      ReadWritten(more);
      var rest := Join(Lines(more), '\n');
      ReadEscapedLine(records[0], Some(rest));
      NextLine(records, line, rest);
    }
  }

  /** `join` past its first part. */
  lemma JoinStep(parts: seq<string>, sep: char)
    requires |parts| > 1
    ensures Join(parts, sep) == parts[0] + ([sep] + Join(parts[1..], sep))
  {
  }

  lemma LastLine(records: seq<seq<string>>, line: string)
    requires |records| == 1 && line == Join(EscapeAll(records[0]), ',')
    requires ReadRecord(line + Tail(None)) == Some(Cut(records[0], None))
    ensures ReadRecords(Join(Lines(records), '\n')) == Some(records)
  {
    assert Lines(records) == [line];
    assert line + Tail(None) == line;
    assert records == [records[0]];
  }

  lemma NextLine(records: seq<seq<string>>, line: string, rest: string)
    requires |records| > 1 && line == Join(EscapeAll(records[0]), ',') && rest == Join(Lines(records[1..]), '\n')
    requires ReadRecord(line + Tail(Some(rest))) == Some(Cut(records[0], Some(rest)))
    requires ReadRecords(rest) == Some(records[1..])
    ensures ReadRecords(Join(Lines(records), '\n')) == Some(records)
  {
    var t := Join(Lines(records), '\n');
    assert Lines(records)[1..] == Lines(records[1..]);
    assert t == line + Tail(Some(rest)) by {
      JoinStep(Lines(records), '\n');
    }
    assert ReadRecords(t) == Some([records[0]] + records[1..]);
    assert records == [records[0]] + records[1..];
  }

  /** The characters of the header names. */
  predicate NameChar(c: char) {
    'a' <= c <= 'z' || c == '_'
  }

  predicate IsName(s: string) {
    forall j :: 0 <= j < |s| ==> NameChar(s[j])
  }

  lemma NameUnquoted(s: string)
    requires IsName(s)
    ensures !NeedsQuotes(s)
  {
  }

  /** A header name needs no quoting. */
  lemma ColumnsUnquoted()
    ensures forall i :: 0 <= i < |Columns| ==> !NeedsQuotes(Columns[i])
  {
    assert forall i :: 0 <= i < |Columns| ==> IsName(Columns[i]);
    forall i | 0 <= i < |Columns|
      ensures !NeedsQuotes(Columns[i])
    {
      NameUnquoted(Columns[i]);
    }
  }

  /** A row's line is its cells, escaped and joined. */
  lemma LineOfCells(columns: seq<string>, row: map<string, Json>)
    ensures Line(columns, row) == Join(EscapeAll(Cells(columns, row)), ',')
  {
    var written := seq(|columns|, i requires 0 <= i < |columns| => CsvEscape(Field(row, columns[i])));
    forall i | 0 <= i < |columns|
      ensures written[i] == EscapeAll(Cells(columns, row))[i]
    {
      CsvEscapeIsEscapedCell(Field(row, columns[i]));
    }
    assert written == EscapeAll(Cells(columns, row));
  }

  /** The document is the column names and the rows' cells, each record escaped and joined. */
  lemma CsvTextIsWritten(columns: seq<string>, rows: seq<map<string, Json>>)
    requires forall i :: 0 <= i < |columns| ==> !NeedsQuotes(columns[i])
    ensures CsvText(columns, rows) == Join(Lines([columns] + RowCells(columns, rows)), '\n')
  {
    var records := [columns] + RowCells(columns, rows);
    var lines := [Join(columns, ',')] + RowLines(columns, rows);
    assert EscapeAll(columns) == columns;
    forall i | 0 <= i < |records|
      ensures Lines(records)[i] == lines[i]
    {
      if i > 0 {
        LineOfCells(columns, rows[i - 1]);
      }
    }
    assert Lines(records) == lines;
  }

  /** Read back, the document is the column names and, for each row, the texts of its cells
      (null and undefined as ""): one record per row, each with one field per column in
      column order, whatever the cells contain. */
  lemma CsvTextReadsBack(columns: seq<string>, rows: seq<map<string, Json>>)
    requires columns != [] && forall i :: 0 <= i < |columns| ==> !NeedsQuotes(columns[i])
    ensures ReadRecords(CsvText(columns, rows)) == Some([columns] + RowCells(columns, rows))
  {
    var records := [columns] + RowCells(columns, rows);
    CsvTextIsWritten(columns, rows);
    ReadWritten(records);
  }

  /** The export's document reads back as its ten column names and each row's ten cells. */
  lemma ExportReadsBack(rows: seq<map<string, Json>>)
    ensures ReadRecords(CsvText(Columns, rows)) == Some([Columns] + RowCells(Columns, rows))
  {
    ColumnsUnquoted();
    CsvTextReadsBack(Columns, rows);
  }
}

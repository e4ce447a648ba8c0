/** The CSV export shared by the contract, brand and user screens: field
    quoting as in items 6 and 7 of section 2 of RFC 4180, fields joined with
    ',', records joined with a line feed (not CRLF), and the whole text
    prefixed with a byte-order mark. The decoder below reads such text back
    by the same rules; it is the partner the export is proved against. */
module Csv {
  import opened Types
  import opened Text

  /** A value handed to `escapeCsvField`: null or undefined, a string, or a number. */
  datatype CsvValue = Null | Str(s: string) | Num(n: int)

  /** The byte-order mark the exports start with. */
  const Bom: char := '\U{FEFF}'

  /** The characters of the test `/[",\n\r]/`. */
  predicate IsSpecial(c: char) {
    c == '"' || c == ',' || c == '\n' || c == '\r'
  }

  predicate NeedsQuoting(s: string) {
    exists i :: 0 <= i < |s| && IsSpecial(s[i])
  }

  /** `s.replace(/"/g, '""')`. */
  function DoubleQuotes(s: string): string {
    if s == [] then []
    else (if s[0] == '"' then "\"\"" else [s[0]]) + DoubleQuotes(s[1..])
  }

  /** The quoting step of `escapeCsvField` applied to a string. */
  function QuoteText(s: string): string {
    if NeedsQuoting(s) then "\"" + DoubleQuotes(s) + "\"" else s
  }

  /** The text a value stands for: '' for null, `String(n)` for a number. */
  function CellText(v: CsvValue): string {
    match v
    case Null => ""
    case Str(s) => s
    case Num(n) => IntToString(n)
  }

  /** `escapeCsvField`, written once for the three screens that repeat it. */
  function EscapeField(v: CsvValue): string {
    match v
    case Null => ""
    case Str(s) => QuoteText(s)
    case Num(n) => QuoteText(IntToString(n))
  }

  /** `parts.join(sep)`. */
  function JoinWith(parts: seq<string>, sep: char): string {
    if parts == [] then ""
    else if |parts| == 1 then parts[0]
    else parts[0] + [sep] + JoinWith(parts[1..], sep)
  }

  /** `row.map(escapeCsvField)`. */
  function EscapeRow(row: seq<CsvValue>): (r: seq<string>)
    ensures |r| == |row|
  {
    if row == [] then [] else [EscapeField(row[0])] + EscapeRow(row[1..])
  }

  /** One CSV line: the escaped fields joined with ','. */
  function RenderRow(row: seq<CsvValue>): string {
    JoinWith(EscapeRow(row), ',')
  }

  function RenderRows(rows: seq<seq<CsvValue>>): (r: seq<string>)
    ensures |r| == |rows|
  {
    if rows == [] then [] else [RenderRow(rows[0])] + RenderRows(rows[1..])
  }

  /** The exported text: the byte-order mark, the header line (the names
      joined with ',', not escaped), then one escaped line per row, the lines
      joined with '\n'. */
  function Document(header: seq<string>, rows: seq<seq<CsvValue>>): string {
    [Bom] + JoinWith([JoinWith(header, ',')] + RenderRows(rows), '\n')
  }

  /** The header names as string values. */
  function Labels(header: seq<string>): (r: seq<CsvValue>)
    ensures |r| == |header|
  {
    if header == [] then [] else [Str(header[0])] + Labels(header[1..])
  }

  /** The texts of a row's values. */
  function Cells(row: seq<CsvValue>): (r: seq<string>)
    ensures |r| == |row|
    ensures forall i :: 0 <= i < |row| ==> r[i] == CellText(row[i])
  {
    if row == [] then [] else [CellText(row[0])] + Cells(row[1..])
  }

  function Table(rows: seq<seq<CsvValue>>): (r: seq<seq<string>>)
    ensures |r| == |rows|
    ensures forall i :: 0 <= i < |rows| ==> r[i] == Cells(rows[i])
  {
    if rows == [] then [] else [Cells(rows[0])] + Table(rows[1..])
  }

  // ---- Decoding, by the rules of section 2 of RFC 4180 with '\n' between records ----

  /** An unquoted field: everything up to the next ',' or line feed. */
  function ParseBare(t: string): (r: (string, string))
    ensures r.0 + r.1 == t
    ensures r.1 == [] || r.1[0] == ',' || r.1[0] == '\n'
  {
    if t == [] || t[0] == ',' || t[0] == '\n' then ([], t)
    else
      var (v, rest) := ParseBare(t[1..]);
      ([t[0]] + v, rest)
  }

  /** The inside of a quoted field, after its opening quote: a doubled quote
      stands for one quote, a single quote closes the field. */
  function ParseQuoted(t: string): (r: Option<(string, string)>)
    ensures r.Some? ==> |r.value.1| < |t|
  {
    if t == [] then None
    else if t[0] == '"' then
      if |t| > 1 && t[1] == '"' then
        match ParseQuoted(t[2..])
        case None => None
        case Some((v, rest)) => Some((['"'] + v, rest))
      else Some(([], t[1..]))
    else
      match ParseQuoted(t[1..])
      case None => None
      case Some((v, rest)) => Some(([t[0]] + v, rest))
  }

  function ParseField(t: string): (r: Option<(string, string)>)
    ensures r.Some? ==> |r.value.1| <= |t|
  {
    if t != [] && t[0] == '"' then ParseQuoted(t[1..]) else Some(ParseBare(t))
  }

  /** One record: fields separated by ',', up to a line feed or the end. */
  function ParseRecord(t: string): (r: Option<(seq<string>, string)>)
    ensures r.Some? ==> |r.value.1| <= |t| && (r.value.1 == [] || r.value.1[0] == '\n')
    decreases |t|
  {
    match ParseField(t)
    case None => None
    case Some((v, rest)) =>
      if rest != [] && rest[0] == ',' then
        match ParseRecord(rest[1..])
        case None => None
        case Some((fs, rest')) => Some(([v] + fs, rest'))
      else if rest == [] || rest[0] == '\n' then Some(([v], rest))
      else None
  }

  function ParseRecords(t: string): Option<seq<seq<string>>>
    decreases |t|
  {
    match ParseRecord(t)
    case None => None
    case Some((fs, rest)) =>
      if rest == [] then Some([fs])
      else
        match ParseRecords(rest[1..])
        case None => None
        case Some(more) => Some([fs] + more)
  }

  /** Reads an exported text back into its records. */
  function Decode(text: string): Option<seq<seq<string>>> {
    if text != [] && text[0] == Bom then ParseRecords(text[1..]) else ParseRecords(text)
  }

  // ---- The round trip ----

  /** What follows a field in the exported text. */
  predicate FieldEnd(rest: string) {
    rest == [] || rest[0] == ',' || rest[0] == '\n'
  }

  /** Numbers are never quoted: their text has no special character. */
  lemma NumberNeedsNoQuotes(n: int)
    ensures EscapeField(Num(n)) == IntToString(n)
  {
    var s := IntToString(n);
    forall i | 0 <= i < |s| ensures !IsSpecial(s[i]) {
      assert s[i] == '-' || IsDigit(s[i]);
    }
  }

  lemma EscapeFieldIsQuoteText(v: CsvValue)
    ensures EscapeField(v) == QuoteText(CellText(v))
  {
  }

  lemma {:induction false} BareRoundTrip(s: string, rest: string)
    requires !NeedsQuoting(s) && FieldEnd(rest)
    ensures ParseBare(s + rest) == (s, rest)
  {
    if s == [] {
      assert s + rest == rest;
    } else {
      assert !IsSpecial(s[0]);
      assert !NeedsQuoting(s[1..]) by {
        forall i | 0 <= i < |s[1..]| ensures !IsSpecial(s[1..][i]) {
          assert s[1..][i] == s[i + 1];
        }
      }
      BareRoundTrip(s[1..], rest);
      assert (s + rest)[1..] == s[1..] + rest;
      assert [s[0]] + s[1..] == s;
    }
  }

  lemma {:induction false} QuotedRoundTrip(s: string, rest: string)
    requires FieldEnd(rest)
    ensures ParseQuoted(DoubleQuotes(s) + ("\"" + rest)) == Some((s, rest))
  {
    var t := DoubleQuotes(s) + ("\"" + rest);
    if s == [] {
      assert t == "\"" + rest;
      assert t[1..] == rest;
      assert !(|t| > 1 && t[1] == '"');
    } else {
      var t' := DoubleQuotes(s[1..]) + ("\"" + rest);
      QuotedRoundTrip(s[1..], rest);
      if s[0] == '"' {
        assert t == "\"\"" + t';
        assert t[0] == '"' && |t| > 1 && t[1] == '"' && t[2..] == t';
        assert ['"'] + s[1..] == s;
      } else {
        assert t == [s[0]] + t';
        assert t[0] != '"' && t[1..] == t';
        assert [s[0]] + s[1..] == s;
      }
    }
  }

  /** An escaped field, read back, is the original text, and the reader stops
      exactly where the field ends: a field with commas, quotes or line breaks
      cannot spill into its neighbours. */
  lemma FieldRoundTrip(v: CsvValue, rest: string)
    requires FieldEnd(rest)
    ensures ParseField(EscapeField(v) + rest) == Some((CellText(v), rest))
  {
    var s := CellText(v);
    EscapeFieldIsQuoteText(v);
    if NeedsQuoting(s) {
      var t := "\"" + DoubleQuotes(s) + "\"" + rest;
      assert t[1..] == DoubleQuotes(s) + ("\"" + rest);
      QuotedRoundTrip(s, rest);
    } else {
      BareRoundTrip(s, rest);
      if s != [] {
        assert s[0] != '"' by { assert !IsSpecial(s[0]); }
        assert (s + rest)[0] == s[0];
      } else {
        assert s + rest == rest;
      }
    }
  }

  /** A line of two or more values is the first escaped field, a comma and the rest of the line. */
  lemma RenderRowCons(row: seq<CsvValue>)
    requires |row| >= 2
    ensures RenderRow(row) == EscapeField(row[0]) + ([','] + RenderRow(row[1..]))
  {
    assert EscapeRow(row)[1..] == EscapeRow(row[1..]);
  }

  /** A record reader step: a field followed by a comma and more fields. */
  lemma ParseRecordMore(t: string, v: string, u: string)
    requires ParseField(t) == Some((v, [','] + u))
    requires ParseRecord(u).Some?
    ensures ParseRecord(t) == Some(([v] + ParseRecord(u).value.0, ParseRecord(u).value.1))
  {
    assert ([','] + u)[1..] == u;
  }

  /** A record reader step: the last field of a record. */
  lemma ParseRecordLast(t: string, v: string, rest: string)
    requires ParseField(t) == Some((v, rest))
    requires rest == [] || rest[0] == '\n'
    ensures ParseRecord(t) == Some(([v], rest))
  {
  }

  /** A rendered line reads back as the texts of its values. */
  lemma {:induction false} RecordRoundTrip(row: seq<CsvValue>, rest: string)
    requires |row| >= 1
    requires rest == [] || rest[0] == '\n'
    ensures ParseRecord(RenderRow(row) + rest) == Some((Cells(row), rest))
  {
    if |row| == 1 {
      assert RenderRow(row) == EscapeField(row[0]);
      FieldRoundTrip(row[0], rest);
      ParseRecordLast(RenderRow(row) + rest, CellText(row[0]), rest);
      assert Cells(row) == [CellText(row[0])];
    } else {
      var f, tail := EscapeField(row[0]), RenderRow(row[1..]);
      var u := tail + rest;
      RenderRowCons(row);
      assert RenderRow(row) + rest == f + ([','] + u);
      FieldRoundTrip(row[0], [','] + u);
      RecordRoundTrip(row[1..], rest);
      ParseRecordMore(RenderRow(row) + rest, CellText(row[0]), u);
      assert Cells(row) == [CellText(row[0])] + Cells(row[1..]);
    }
  }

  predicate NoEmptyRow(rows: seq<seq<CsvValue>>) {
    forall i :: 0 <= i < |rows| ==> |rows[i]| >= 1
  }

  lemma {:induction false} RecordsRoundTrip(rows: seq<seq<CsvValue>>)
    requires |rows| >= 1 && NoEmptyRow(rows)
    ensures ParseRecords(JoinWith(RenderRows(rows), '\n')) == Some(Table(rows))
  {
    if |rows| == 1 {
      assert JoinWith(RenderRows(rows), '\n') == RenderRow(rows[0]) + [];
      RecordRoundTrip(rows[0], []);
      assert Table(rows) == [Cells(rows[0])];
    } else {
      var tail := JoinWith(RenderRows(rows[1..]), '\n');
      assert RenderRows(rows)[1..] == RenderRows(rows[1..]);
      assert JoinWith(RenderRows(rows), '\n') == RenderRow(rows[0]) + (['\n'] + tail);
      RecordRoundTrip(rows[0], ['\n'] + tail);
      assert (['\n'] + tail)[1..] == tail;
      assert NoEmptyRow(rows[1..]) by {
        forall i | 0 <= i < |rows[1..]| ensures |rows[1..][i]| >= 1 {
          assert rows[1..][i] == rows[i + 1];
        }
      }
      RecordsRoundTrip(rows[1..]);
      assert Table(rows) == [Cells(rows[0])] + Table(rows[1..]);
    }
  }

  /** Header names without special characters come out the same whether
      escaped or not. */
  lemma {:induction false} PlainHeader(header: seq<string>)
    requires forall i :: 0 <= i < |header| ==> !NeedsQuoting(header[i])
    ensures RenderRow(Labels(header)) == JoinWith(header, ',')
    ensures Cells(Labels(header)) == header
  {
    if |header| >= 2 {
      PlainHeader(header[1..]);
      RenderRowCons(Labels(header));
      assert Labels(header)[1..] == Labels(header[1..]);
    } else if |header| == 1 {
      assert EscapeRow(Labels(header)) == [header[0]];
    }
  }

  /** Decoding an export gives back the header names, then, row by row and
      field by field, the texts of the exported values. */
  lemma DocumentRoundTrip(header: seq<string>, rows: seq<seq<CsvValue>>)
    requires |header| >= 1
    requires forall i :: 0 <= i < |header| ==> !NeedsQuoting(header[i])
    requires NoEmptyRow(rows)
    ensures Decode(Document(header, rows)) == Some([header] + Table(rows))
  {
    var all := [Labels(header)] + rows;
    PlainHeader(header);
    assert all[1..] == rows;
    assert RenderRows(all) == [JoinWith(header, ',')] + RenderRows(rows);
    assert NoEmptyRow(all) by {
      forall i | 0 <= i < |all| ensures |all[i]| >= 1 {
        if i > 0 { assert all[i] == rows[i - 1]; }
      }
    }
    RecordsRoundTrip(all);
    assert Table(all) == [header] + Table(rows);
    assert Document(header, rows)[1..] == JoinWith(RenderRows(all), '\n');
  }
}

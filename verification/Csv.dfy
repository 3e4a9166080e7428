/** The comma separated writer and the reader that undoes it (table-export.ts). */
module Csv {
  import opened Wrappers

  // ---- The writer: src/lib/export/table-export.ts:18-24 ----

  predicate Special(c: char) {
    c == '"' || c == ',' || c == '\n' || c == '\r'
  }

  predicate NeedsQuotes(s: string) {
    exists i :: 0 <= i < |s| && Special(s[i])
  }

  function DoubleQuotes(s: string): string {
    if s == "" then ""
    else (if s[0] == '"' then "\"\"" else [s[0]]) + DoubleQuotes(s[1..])
  }

  function Escape(s: string): string {
    if NeedsQuotes(s) then "\"" + DoubleQuotes(s) + "\"" else s
  }

  function RowText(row: seq<string>): string {
    if row == [] then ""
    else if |row| == 1 then Escape(row[0])
    else Escape(row[0]) + "," + RowText(row[1..])
  }

  function ToCsv(rows: seq<seq<string>>): string {
    if rows == [] then ""
    else if |rows| == 1 then RowText(rows[0])
    else RowText(rows[0]) + "\r\n" + ToCsv(rows[1..])
  }

  predicate NoEmptyRow(rows: seq<seq<string>>) {
    forall i :: 0 <= i < |rows| ==> rows[i] != []
  }

  // ---- The reader: section 2 of RFC 4180, line breaks only between records ----

  predicate AtBreak(text: string) {
    |text| >= 2 && text[0] == '\r' && text[1] == '\n'
  }

  /** What can follow a field: the end, a comma or a line break. */
  predicate AtFieldEnd(text: string) {
    text == "" || text[0] == ',' || AtBreak(text)
  }

  /** Reads the rest of a quoted field, after its opening quote. */
  function ReadQuoted(text: string): (r: Option<(string, string)>)
    ensures r.Some? ==> |r.value.1| < |text|
  {
    if text == "" then None
    else if text[0] != '"' then
      match ReadQuoted(text[1..])
      case None => None
      case Some(rest) => Some(([text[0]] + rest.0, rest.1))
    else if |text| >= 2 && text[1] == '"' then
      match ReadQuoted(text[2..])
      case None => None
      case Some(rest) => Some(("\"" + rest.0, rest.1))
    else Some(("", text[1..]))
  }

  function ReadBare(text: string): (r: (string, string))
    ensures |r.1| <= |text|
  {
    if text == "" || text[0] == '"' || text[0] == ',' || text[0] == '\r' || text[0] == '\n' then ("", text)
    else
      var rest := ReadBare(text[1..]);
      ([text[0]] + rest.0, rest.1)
  }

  function ReadField(text: string): (r: Option<(string, string)>)
    ensures r.Some? ==> |r.value.1| <= |text|
  {
    if text != "" && text[0] == '"' then ReadQuoted(text[1..]) else Some(ReadBare(text))
  }

  /** Reads one record; the remainder is empty or starts with a line break. */
  function ReadRow(text: string): (r: Option<(seq<string>, string)>)
    ensures r.Some? ==> |r.value.1| <= |text| && r.value.0 != []
    ensures r.Some? ==> r.value.1 == "" || AtBreak(r.value.1)
    decreases |text|
  {
    match ReadField(text)
    case None => None
    case Some(field) =>
      if !AtFieldEnd(field.1) then None
      else if field.1 == "" || AtBreak(field.1) then Some(([field.0], field.1))
      else
        match ReadRow(field.1[1..])
        case None => None
        case Some(row) => Some(([field.0] + row.0, row.1))
  }

  function ReadCsv(text: string): (r: Option<seq<seq<string>>>)
    ensures r.Some? ==> r.value != [] && NoEmptyRow(r.value)
    decreases |text|
  {
    match ReadRow(text)
    case None => None
    case Some(row) =>
      if row.1 == "" then Some([row.0])
      else
        match ReadCsv(row.1[2..])
        case None => None
        case Some(rows) => Some([row.0] + rows)
  }

  // ---- Round trip ----

  lemma {:induction false} QuotedReadsBack(s: string, rest: string)
    requires rest == "" || rest[0] != '"'
    ensures ReadQuoted(DoubleQuotes(s) + "\"" + rest) == Some((s, rest))
  {
    var text := DoubleQuotes(s) + "\"" + rest;
    if s == "" {
      assert text[1..] == rest;
    } else {
      QuotedReadsBack(s[1..], rest);
      var tail := DoubleQuotes(s[1..]) + "\"" + rest;
      assert [s[0]] + s[1..] == s;
      if s[0] == '"' {
        assert text[2..] == tail;
      } else {
        assert text[1..] == tail;
      }
    }
  }

  lemma {:induction false} BareReadsBack(s: string, rest: string)
    requires !NeedsQuotes(s)
    requires rest == "" || Special(rest[0])
    ensures ReadBare(s + rest) == (s, rest)
  {
    if s == "" {
      assert s + rest == rest;
    } else {
      assert !Special(s[0]);
      assert !NeedsQuotes(s[1..]);
      BareReadsBack(s[1..], rest);
      assert (s + rest)[1..] == s[1..] + rest;
      assert [s[0]] + s[1..] == s;
    }
  }

  lemma FieldReadsBack(s: string, rest: string)
    requires AtFieldEnd(rest)
    ensures ReadField(Escape(s) + rest) == Some((s, rest))
  {
    hide ReadQuoted, ReadBare, DoubleQuotes;
    if NeedsQuotes(s) {
      QuotedReadsBack(s, rest);
      var text := Escape(s) + rest;
      assert text[1..] == DoubleQuotes(s) + "\"" + rest;
    } else {
      BareReadsBack(s, rest);
      if s != "" {
        assert !Special(s[0]);
      }
    }
  }

  lemma {:induction false} RowReadsBack(row: seq<string>, rest: string)
    requires row != []
    requires rest == "" || AtBreak(rest)
    ensures ReadRow(RowText(row) + rest) == Some((row, rest))
    decreases |row|
  {
    hide Escape, ReadField, AtFieldEnd;
    if |row| == 1 {
      LastField(row[0], rest);
      assert [row[0]] == row;
    } else {
      var tail := RowText(row[1..]) + rest;
      RowReadsBack(row[1..], rest);
      assert RowText(row) + rest == Escape(row[0]) + ("," + tail);
      FieldThenRow(row[0], tail);
      assert [row[0]] + row[1..] == row;
    }
  }

  lemma LastField(s: string, rest: string)
    requires rest == "" || AtBreak(rest)
    ensures ReadRow(Escape(s) + rest) == Some(([s], rest))
  {
    hide Escape, ReadField;
    FieldReadsBack(s, rest);
  }

  lemma FieldThenRow(s: string, tail: string)
    requires ReadRow(tail).Some?
    ensures ReadRow(Escape(s) + ("," + tail)) == Some(([s] + ReadRow(tail).value.0, ReadRow(tail).value.1))
  {
    hide Escape, ReadField;
    var rest := "," + tail;
    FieldReadsBack(s, rest);
    assert rest[1..] == tail;
    assert AtFieldEnd(rest) && rest != "" && !AtBreak(rest);
  }

  lemma {:induction false} CsvReadsBack(rows: seq<seq<string>>)
    requires rows != []
    requires NoEmptyRow(rows)
    ensures ReadCsv(ToCsv(rows)) == Some(rows)
    decreases |rows|
  {
    hide RowText, ReadRow;
    if |rows| == 1 {
      RowReadsBack(rows[0], "");
      assert RowText(rows[0]) + "" == RowText(rows[0]);
      assert [rows[0]] == rows;
    } else {
      var tail := ToCsv(rows[1..]);
      CsvReadsBack(rows[1..]);
      RowReadsBack(rows[0], "\r\n" + tail);
      assert ToCsv(rows) == RowText(rows[0]) + ("\r\n" + tail);
      assert ("\r\n" + tail)[2..] == tail;
      assert [rows[0]] + rows[1..] == rows;
    }
  }

  /** The reader recovers the table exactly when it has a row and no row is empty:
      an empty table, a table of one empty row and a table of one empty cell all
      print as the empty text. */
  lemma CsvExact(rows: seq<seq<string>>)
    ensures ReadCsv(ToCsv(rows)) == Some(rows) <==> rows != [] && NoEmptyRow(rows)
  {
    if rows != [] && NoEmptyRow(rows) {
      CsvReadsBack(rows);
    }
  }

  /** A cell stands as it is exactly when it has no quote, comma or line break in it. */
  lemma PlainExactly(s: string)
    ensures ToCsv([[s]]) == s <==> '"' !in s && ',' !in s && '\n' !in s && '\r' !in s
  {
    if NeedsQuotes(s) {
      DoublingKeepsLength(s);
    }
  }

  lemma {:induction false} DoublingKeepsLength(s: string)
    ensures |DoubleQuotes(s)| >= |s|
  {
    if s != "" {
      DoublingKeepsLength(s[1..]);
    }
  }

  /** The tables that print as the empty text. */
  lemma EmptyTextExactly(rows: seq<seq<string>>)
    ensures ToCsv(rows) == "" <==> rows == [] || rows == [[]] || rows == [[""]]
  {
    if |rows| == 1 && |rows[0]| == 1 {
      assert rows[0] == [rows[0][0]];
    }
  }

  /** So two different non-degenerate tables never print alike. */
  lemma CsvInjective(a: seq<seq<string>>, b: seq<seq<string>>)
    requires a != [] && b != []
    requires NoEmptyRow(a)
    requires NoEmptyRow(b)
    requires ToCsv(a) == ToCsv(b)
    ensures a == b
  {
    CsvReadsBack(a);
    CsvReadsBack(b);
  }
}

/**
  The CSV text the aggregated view downloads: a header row of the upper-cased
  column captions, then one row per displayed table row with the columns'
  values in header order; every field wrapped in double quotes, fields joined
  by commas and rows by newlines. Quotes inside a value are not escaped.

  A reader for that text is defined here as well, to state what the text
  carries: for values without quotes or newlines it gives back exactly the
  header and the rows.
 */
module AggregatedCsv {
  import opened JsValues
  import opened AggregatedRows

  // ---------------------------------------------------------------------------
  // Writing
  // ---------------------------------------------------------------------------

  /** The template `"${v}"`. */
  function Quote(v: string): string {
    "\"" + v + "\""
  }

  /** `cells.map(v => "${v}").join(",")`. */
  function JoinFields(cells: seq<string>): string {
    if |cells| == 0 then ""
    else if |cells| == 1 then Quote(cells[0])
    else Quote(cells[0]) + "," + JoinFields(cells[1..])
  }

  /** `lines.join("\n")`. */
  function JoinLines(lines: seq<string>): string {
    if |lines| == 0 then ""
    else if |lines| == 1 then lines[0]
    else lines[0] + "\n" + JoinLines(lines[1..])
  }

  /** `HEADERS.map(h => h.label.toUpperCase())`. */
  function HeaderCells(): seq<string> {
    seq(|Headers|, i requires 0 <= i < |Headers| => ToUpper(Headers[i].caption))
  }

  /** `HEADERS.map(h => row[h.key])`, each value as the template interpolates it. */
  function RowCells(row: Row): seq<string> {
    seq(|Headers|, i requires 0 <= i < |Headers| => ToJsString(Lookup(row, Headers[i].key)))
  }

  /** `[headers, ...rowsData]`: the header row followed by the rows, as cells. */
  function CsvTable(rows: seq<Row>): seq<seq<string>> {
    [HeaderCells()] + seq(|rows|, i requires 0 <= i < |rows| => RowCells(rows[i]))
  }

  /** Each row of cells as one quoted, comma-joined line. */
  function CsvLines(table: seq<seq<string>>): seq<string> {
    seq(|table|, i requires 0 <= i < |table| => JoinFields(table[i]))
  }

  /** The `csvContent` handed to the download. */
  function ExportCsv(rows: seq<Row>): string {
    JoinLines(CsvLines(CsvTable(rows)))
  }

  /** A joined line is empty exactly when there are no cells; otherwise it opens and closes with a quote. */
  lemma {:induction false} JoinFieldsShape(cells: seq<string>)
    ensures |cells| == 0 <==> JoinFields(cells) == []
    ensures |cells| > 0 ==>
      |JoinFields(cells)| >= 2 && JoinFields(cells)[0] == '"' && JoinFields(cells)[|JoinFields(cells)| - 1] == '"'
  {
    if |cells| > 1 {
      JoinFieldsShape(cells[1..]);
    }
  }

  /** The joined text begins with the first line and ends with the last. */
  lemma {:induction false} JoinLinesEnds(lines: seq<string>)
    requires |lines| > 0
    ensures lines[0] <= JoinLines(lines)
    ensures |lines[|lines| - 1]| <= |JoinLines(lines)|
    ensures JoinLines(lines)[|JoinLines(lines)| - |lines[|lines| - 1]|..] == lines[|lines| - 1]
  {
    if |lines| > 1 {
      JoinLinesEnds(lines[1..]);
    }
  }

  /** The download begins with the header line and ends with the line of the last row. */
  lemma ExportCsvEnds(rows: seq<Row>)
    ensures JoinFields(HeaderCells()) <= ExportCsv(rows)
    ensures |rows| > 0 ==>
      var last := JoinFields(RowCells(rows[|rows| - 1]));
      |last| <= |ExportCsv(rows)| && ExportCsv(rows)[|ExportCsv(rows)| - |last|..] == last
  {
    var lines := CsvLines(CsvTable(rows));
    CsvLinesShape(rows);
    JoinLinesEnds(lines);
    assert ExportCsv(rows) == JoinLines(lines);
    if |rows| > 0 {
      assert lines[|lines| - 1] == JoinFields(RowCells(rows[|rows| - 1]));
    }
  }

  // ---------------------------------------------------------------------------
  // Reading
  // ---------------------------------------------------------------------------

  /** The text cut at every newline. */
  function SplitLines(s: string): (lines: seq<string>)
    ensures |lines| >= 1
  {
    if s == [] then [[]]
    else
      var lines := SplitLines(s[1..]);
      if s[0] == '\n' then [[]] + lines else [[s[0]] + lines[0]] + lines[1..]
  }

  /**
    What follows an opening quote: the field up to the closing quote and the
    text after it; `None` when no quote closes the field.
   */
  function ReadQuoted(s: string): (r: Option<(string, string)>)
    ensures r.Some? ==> |r.value.1| < |s|
  {
    if s == [] then None
    else if s[0] == '"' then Some(([], s[1..]))
    else
      match ReadQuoted(s[1..])
      case None => None
      case Some((field, rest)) => Some(([s[0]] + field, rest))
  }

  /** A line of quoted fields separated by commas; `None` when the line has another shape. */
  function ParseFields(line: string): Option<seq<string>>
    decreases |line|
  {
    if line == [] || line[0] != '"' then None
    else
      match ReadQuoted(line[1..])
      case None => None
      case Some((field, rest)) =>
        if rest == [] then Some([field])
        else if rest[0] != ',' then None
        else
          match ParseFields(rest[1..])
          case None => None
          case Some(more) => Some([field] + more)
  }

  /** Every line read as quoted fields; `None` when one of them has another shape. */
  function ParseLines(lines: seq<string>): Option<seq<seq<string>>> {
    if lines == [] then Some([])
    else
      var first := ParseFields(lines[0]);
      var more := ParseLines(lines[1..]);
      if first.Some? && more.Some? then Some([first.value] + more.value) else None
  }

  /** The cells of a CSV text, line by line. */
  function ParseCsv(text: string): Option<seq<seq<string>>> {
    ParseLines(SplitLines(text))
  }

  // ---------------------------------------------------------------------------
  // What the text carries
  // ---------------------------------------------------------------------------

  /** A value the format can carry unchanged: no quote and no newline. */
  predicate CsvSafe(s: string) {
    forall i :: 0 <= i < |s| ==> s[i] != '"' && s[i] != '\n'
  }

  lemma CsvSafeHasNoQuoteOrNewline(s: string)
    requires CsvSafe(s)
    ensures '"' !in s && '\n' !in s
  {
  }

  predicate NoNewline(s: string) {
    '\n' !in s
  }

  /** Cutting a text at its first newline: the line before it, then the lines of the rest. */
  lemma {:induction false} SplitFirstLine(head: string, rest: string)
    requires NoNewline(head)
    ensures SplitLines(head + ['\n'] + rest) == [head] + SplitLines(rest)
  {
    if head != [] {
      SplitFirstLine(head[1..], rest);
      assert (head + ['\n'] + rest)[1..] == head[1..] + ['\n'] + rest;
      assert [head[0]] + head[1..] == head;
    } else {
      assert head + ['\n'] + rest == ['\n'] + rest;
    }
  }

  /** Lines without newlines are recovered by cutting their join at the newlines. */
  lemma {:induction false} SplitJoinLines(lines: seq<string>)
    requires |lines| >= 1
    requires forall i :: 0 <= i < |lines| ==> NoNewline(lines[i])
    ensures SplitLines(JoinLines(lines)) == lines
  {
    if |lines| == 1 {
      SplitNoNewline(lines[0]);
    } else {
      SplitFirstLine(lines[0], JoinLines(lines[1..]));
      SplitJoinLines(lines[1..]);
      assert lines == [lines[0]] + lines[1..];
    }
  }

  /** A text without newlines is one line. */
  lemma {:induction false} SplitNoNewline(s: string)
    requires NoNewline(s)
    ensures SplitLines(s) == [s]
  {
    if s != [] {
      SplitNoNewline(s[1..]);
      assert [s[0]] + s[1..] == s;
    }
  }

  /** A field without quotes is read up to the quote that closes it. */
  lemma {:induction false} ReadQuotedField(c: string, tail: string)
    requires '"' !in c
    ensures ReadQuoted(c + ['"'] + tail) == Some((c, tail))
  {
    if c != [] {
      ReadQuotedField(c[1..], tail);
      assert (c + ['"'] + tail)[1..] == c[1..] + ['"'] + tail;
      assert [c[0]] + c[1..] == c;
    } else {
      assert c + ['"'] + tail == ['"'] + tail;
    }
  }

  /** Quoted fields without quotes are recovered by reading the line. */
  lemma {:induction false} ParseJoinFields(cells: seq<string>)
    requires |cells| >= 1
    requires forall i :: 0 <= i < |cells| ==> '"' !in cells[i]
    ensures ParseFields(JoinFields(cells)) == Some(cells)
  {
    var c := cells[0];
    if |cells| == 1 {
      var line := ['"'] + (c + ['"'] + []);
      assert JoinFields(cells) == line;
      assert line[1..] == c + ['"'] + [];
      ReadQuotedField(c, []);
      assert cells == [c];
    } else {
      var rest := JoinFields(cells[1..]);
      var tail := [','] + rest;
      var line := ['"'] + (c + ['"'] + tail);
      assert JoinFields(cells) == line;
      assert line[1..] == c + ['"'] + tail;
      ReadQuotedField(c, tail);
      assert tail[1..] == rest;
      ParseJoinFields(cells[1..]);
      assert cells == [c] + cells[1..];
    }
  }

  /** A line of quoted fields has no newline when its fields have none. */
  lemma {:induction false} JoinFieldsNoNewline(cells: seq<string>)
    requires forall i :: 0 <= i < |cells| ==> NoNewline(cells[i])
    ensures NoNewline(JoinFields(cells))
  {
    if |cells| > 1 {
      JoinFieldsNoNewline(cells[1..]);
    }
  }

  lemma {:induction false} ParseLinesOfTable(table: seq<seq<string>>)
    requires forall i :: 0 <= i < |table| ==> |table[i]| >= 1
    requires forall i, j :: 0 <= i < |table| && 0 <= j < |table[i]| ==> '"' !in table[i][j]
    ensures ParseLines(CsvLines(table)) == Some(table)
  {
    if table != [] {
      ParseJoinFields(table[0]);
      ParseLinesOfTable(table[1..]);
      assert CsvLines(table)[1..] == CsvLines(table[1..]);
      assert table == [table[0]] + table[1..];
    }
  }

  /**
    Any table of at least one row of at least one field, whose cells hold no
    quote and no newline, is read back exactly from its CSV text.
   */
  lemma CsvRoundTrip(table: seq<seq<string>>)
    requires |table| >= 1
    requires forall i :: 0 <= i < |table| ==> |table[i]| >= 1
    requires forall i, j :: 0 <= i < |table| && 0 <= j < |table[i]| ==> CsvSafe(table[i][j])
    ensures SplitLines(JoinLines(CsvLines(table))) == CsvLines(table)
    ensures ParseCsv(JoinLines(CsvLines(table))) == Some(table)
  {
    forall i, j | 0 <= i < |table| && 0 <= j < |table[i]|
      ensures '"' !in table[i][j] && NoNewline(table[i][j])
    {
      CsvSafeHasNoQuoteOrNewline(table[i][j]);
    }
    forall i | 0 <= i < |table|
      ensures NoNewline(CsvLines(table)[i])
    {
      JoinFieldsNoNewline(table[i]);
    }
    SplitJoinLines(CsvLines(table));
    ParseLinesOfTable(table);
  }

  /** Upper-casing keeps a value free of quotes and newlines. */
  lemma ToUpperCsvSafe(s: string)
    requires CsvSafe(s)
    ensures CsvSafe(ToUpper(s))
  {
  }

  /** No caption of the view holds a quote or a newline. */
  lemma CaptionsSafe()
    ensures forall i :: 0 <= i < |Headers| ==> CsvSafe(Headers[i].caption)
  {
    FirstCaptionsSafe();
    MiddleCaptionsSafe();
    LastCaptionsSafe();
  }

  // The captions are checked a few at a time: one obligation over all eleven
  // string literals is too large for the solver.

  lemma FirstCaptionsSafe()
    ensures CsvSafe(Headers[0].caption) && CsvSafe(Headers[1].caption)
    ensures CsvSafe(Headers[2].caption) && CsvSafe(Headers[3].caption)
  {
  }

  lemma MiddleCaptionsSafe()
    ensures CsvSafe(Headers[4].caption) && CsvSafe(Headers[5].caption)
    ensures CsvSafe(Headers[6].caption) && CsvSafe(Headers[7].caption)
  {
  }

  lemma LastCaptionsSafe()
    ensures CsvSafe(Headers[8].caption) && CsvSafe(Headers[9].caption) && CsvSafe(Headers[10].caption)
  {
  }

  /** The header row is the eleven upper-cased captions, none with a quote or newline. */
  lemma HeaderCellsSafe()
    ensures |HeaderCells()| == 11
    ensures forall i :: 0 <= i < 11 ==> HeaderCells()[i] == ToUpper(Headers[i].caption)
    ensures forall i :: 0 <= i < 11 ==> CsvSafe(HeaderCells()[i])
  {
    CaptionsSafe();
    forall i | 0 <= i < 11
      ensures CsvSafe(HeaderCells()[i])
    {
      ToUpperCsvSafe(Headers[i].caption);
    }
  }

  /** The value of every column of the row, as written, has no quote and no newline. */
  ghost predicate RowCsvSafe(row: Row) {
    forall j :: 0 <= j < |RowCells(row)| ==> CsvSafe(RowCells(row)[j])
  }

  /** Numbers, booleans, `null` and `undefined` are written without quotes or newlines. */
  lemma NonStringCsvSafe(v: JsValue)
    requires !v.Str?
    ensures CsvSafe(ToJsString(v))
  {
  }

  /**
    The exported text has one line per displayed row plus the header line;
    reading it gives the upper-cased captions, then each row's eleven values in
    header order, provided no value holds a quote or a newline.
   */
  lemma ExportCsvRoundTrip(rows: seq<Row>)
    requires forall r :: r in rows ==> RowCsvSafe(r)
    ensures |SplitLines(ExportCsv(rows))| == |rows| + 1
    ensures ParseCsv(ExportCsv(rows)) == Some(CsvTable(rows))
    ensures CsvTable(rows)[0] == HeaderCells()
    ensures forall i :: 1 <= i <= |rows| ==> |CsvTable(rows)[i]| == 11
    ensures forall i, j :: 0 <= i < |rows| && 0 <= j < 11 ==>
      CsvTable(rows)[i + 1][j] == ToJsString(Lookup(rows[i], Headers[j].key))
  {
    CsvTableSafe(rows);
    CsvRoundTrip(CsvTable(rows));
  }

  /** The table is the header row followed by one row of eleven cells per displayed row. */
  lemma CsvTableShape(rows: seq<Row>)
    ensures |CsvTable(rows)| == |rows| + 1 && CsvTable(rows)[0] == HeaderCells()
    ensures forall i :: 0 <= i < |rows| ==> CsvTable(rows)[i + 1] == RowCells(rows[i]) && |RowCells(rows[i])| == 11
  {
  }

  /** No value of the row, as written, holds a newline; quotes are allowed. */
  ghost predicate RowNoNewline(row: Row) {
    forall j :: 0 <= j < |RowCells(row)| ==> NoNewline(RowCells(row)[j])
  }

  /**
    Whatever quotes the values hold, the exported text has exactly one line
    per displayed row plus the header line, the header line first and then
    each row's quoted, comma-joined values in display order, provided no
    value holds a newline.
   */
  lemma ExportCsvLines(rows: seq<Row>)
    requires forall r :: r in rows ==> RowNoNewline(r)
    ensures |SplitLines(ExportCsv(rows))| == |rows| + 1
    ensures SplitLines(ExportCsv(rows))[0] == JoinFields(HeaderCells())
    ensures forall i :: 0 <= i < |rows| ==> SplitLines(ExportCsv(rows))[i + 1] == JoinFields(RowCells(rows[i]))
  {
    var lines := CsvLines(CsvTable(rows));
    CsvLinesShape(rows);
    forall i | 0 <= i < |lines|
      ensures NoNewline(lines[i])
    {
      if i == 0 {
        HeaderLineNoNewline();
      } else {
        assert rows[i - 1] in rows;
        RowLineNoNewline(rows[i - 1]);
      }
    }
    assert ExportCsv(rows) == JoinLines(lines);
    SplitJoinLines(lines);
  }

  /** The exported lines: the header line, then one line per displayed row. */
  lemma CsvLinesShape(rows: seq<Row>)
    ensures |CsvLines(CsvTable(rows))| == |rows| + 1
    ensures CsvLines(CsvTable(rows))[0] == JoinFields(HeaderCells())
    ensures forall i :: 0 <= i < |rows| ==> CsvLines(CsvTable(rows))[i + 1] == JoinFields(RowCells(rows[i]))
  {
    var table := CsvTable(rows);
    CsvTableShape(rows);
    LinesOfTable(table);
  }

  /** Each line is its row of cells, quoted and comma-joined. */
  lemma LinesOfTable(table: seq<seq<string>>)
    ensures |CsvLines(table)| == |table|
    ensures forall i :: 0 <= i < |table| ==> CsvLines(table)[i] == JoinFields(table[i])
  {
  }

  lemma HeaderLineNoNewline()
    ensures NoNewline(JoinFields(HeaderCells()))
  {
    HeaderCellsSafe();
    forall j | 0 <= j < 11
      ensures NoNewline(HeaderCells()[j])
    {
      CsvSafeHasNoQuoteOrNewline(HeaderCells()[j]);
    }
    JoinFieldsNoNewline(HeaderCells());
  }

  lemma RowLineNoNewline(row: Row)
    requires RowNoNewline(row)
    ensures NoNewline(JoinFields(RowCells(row)))
  {
    JoinFieldsNoNewline(RowCells(row));
  }

  lemma CsvTableSafe(rows: seq<Row>)
    requires forall r :: r in rows ==> RowCsvSafe(r)
    ensures |CsvTable(rows)| == |rows| + 1
    ensures forall i :: 0 <= i < |CsvTable(rows)| ==> |CsvTable(rows)[i]| == 11
    ensures forall i, j :: 0 <= i < |CsvTable(rows)| && 0 <= j < |CsvTable(rows)[i]| ==> CsvSafe(CsvTable(rows)[i][j])
  {
    var table := CsvTable(rows);
    HeaderCellsSafe();
    CsvTableShape(rows);
    forall i | 0 <= i < |table|
      ensures |table[i]| == 11
      ensures forall j :: 0 <= j < |table[i]| ==> CsvSafe(table[i][j])
    {
      if i > 0 {
        assert rows[i - 1] in rows;
      }
    }
  }

  /**
    A quote inside a value is written as it is, so the text does not read
    back as the same cells: the field `a"b` ends at its inner quote.
   */
  lemma EmbeddedQuoteNotEscaped()
    ensures JoinFields(["a\"b"]) == "\"a\"b\""
    ensures ParseFields(JoinFields(["a\"b"])) == None
  {
    var line := JoinFields(["a\"b"]);
    assert line == "\"a\"b\"";
    assert line[1..] == "a" + ['"'] + "b\"";
    ReadQuotedField("a", "b\"");
  }
}

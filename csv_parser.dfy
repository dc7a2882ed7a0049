// The CSV parser. The CSV library is reduced to what it hands back: the delimiter the sniffer
// guessed from the first kilobyte (or nothing, when sniffing raised) and, for a delimiter, the
// table pandas reads (column headers and rows of cells already turned into strings, empty cells
// as "") or the message of the exception reading raised.

module CsvParsing {
  import opened Wrappers
  import opened Strings

  datatype CsvTable = CsvTable(headers: seq<string>, rows: seq<seq<string>>)

  datatype CsvSummary = CsvSummary(totalRows: nat, totalColumns: nat, totalTextLength: nat)

  /** The parser's record; `error` is present exactly on the failure path. */
  datatype CsvResult = CsvResult(
    filePath: string, fileName: string, fileType: string,
    data: seq<seq<string>>, headers: seq<string>, extractedText: string,
    fileSizeBytes: Option<nat>, summary: CsvSummary, error: Option<string>)

  function Failure(path: string, message: string): CsvResult
  {
    CsvResult(path, Basename(path), "csv", [], [], "", None, CsvSummary(0, 0, 0),
      Some("Failed to parse CSV file: " + message))
  }

  /** The delimiter the file is read with: the sniffed one, or a comma when sniffing failed. */
  function Delimiter(sniffed: Option<char>): char
  {
    sniffed.GetOr(',')
  }

  function StripCells(row: seq<string>): (r: seq<string>)
    ensures |r| == |row|
    ensures forall j :: 0 <= j < |row| ==> r[j] == Strip(row[j])
  {
    seq(|row|, j requires 0 <= j < |row| => Strip(row[j]))
  }

  /** `any(cell.strip() for cell in row)` */
  predicate HasContent(row: seq<string>)
  {
    row != [] && (HasContent(row[..|row| - 1]) || Strip(row[|row| - 1]) != "")
  }

  function RowLine(row: seq<string>): string
  {
    Join(StripCells(row), " | ")
  }

  /** The header line and the dash line under it, when there are headers. */
  function HeaderLines(headers: seq<string>): seq<string>
  {
    if headers == [] then []
    else
      var h := Join(headers, " | ");
      [h, Repeat('-', |h|)]
  }

  /** The line a row adds to the text: its cells, when it has content. */
  function RowEntry(row: seq<string>): seq<string>
  {
    if HasContent(row) then [RowLine(row)] else []
  }

  /** One line per row with some non-blank cell, in row order. */
  function RowLines(rows: seq<seq<string>>): seq<string>
  {
    FlatMap(RowEntry, rows)
  }

  /** Whether a cell is blank, as the loop decides it. */
  method CellHasContent(row: seq<string>) returns (found: bool)
    ensures found == HasContent(row)
  {
    found := false;
    for j := 0 to |row|
      invariant found == HasContent(row[..j])
    {
      var cell := Strip(row[j]);
      HasContentStep(row, j, cell);
      if cell != "" {
        found := true;
      }
    }
    assert row[..|row|] == row;
  }

  lemma HasContentStep(row: seq<string>, j: nat, cell: string)
    requires j < |row| && cell == Strip(row[j])
    ensures HasContent(row[..j + 1]) == (HasContent(row[..j]) || cell != "")
  {
    assert row[..j + 1][..j] == row[..j];
  }

  /** The text_lines list: the header lines, then one line per row with content. */
  method TextLines(headers: seq<string>, rows: seq<seq<string>>) returns (lines: seq<string>)
    ensures lines == HeaderLines(headers) + RowLines(rows)
  {
    lines := [];
    if headers != [] {
      lines := lines + [Join(headers, " | ")];
      lines := lines + [Repeat('-', |Join(headers, " | ")|)];
    }
    var rendered := ContentLines(rows);
    lines := lines + rendered;
  }

  /** The row loop of the text rendering. */
  method ContentLines(rows: seq<seq<string>>) returns (lines: seq<string>)
    ensures lines == RowLines(rows)
  {
    lines := [];
    for i := 0 to |rows|
      invariant lines == RowLines(rows[..i])
    {
      var keep := CellHasContent(rows[i]);
      RowLinesStep(rows, i);
      if keep {
        lines := lines + [RowLine(rows[i])];
      }
    }
    assert rows[..|rows|] == rows;
  }

  lemma RowLinesStep(rows: seq<seq<string>>, i: nat)
    requires i < |rows|
    ensures RowLines(rows[..i + 1]) == RowLines(rows[..i]) + RowEntry(rows[i])
  {
    assert rows[..i + 1][..i] == rows[..i];
  }

  /**
   * parse_file. `fileSize` is None when the path does not exist; `sniffed` is the sniffer's
   * delimiter (None when it raised); `read` gives, for a delimiter, the table pandas reads or the
   * message of its exception.
   */
  method ParseCsv(path: string, fileSize: Option<nat>, sniffed: Option<char>,
                  read: char -> Result<CsvTable, string>) returns (r: CsvResult)
    ensures fileSize.None? ==> r == Failure(path, "CSV file not found: " + path)
    ensures fileSize.Some? && read(Delimiter(sniffed)).Err? ==> r == Failure(path, read(Delimiter(sniffed)).error)
    ensures fileSize.Some? && read(Delimiter(sniffed)).Ok? ==>
      var t := read(Delimiter(sniffed)).value;
      r.filePath == path && r.fileName == Basename(path) && r.fileType == "csv" && r.error.None?
      && r.headers == t.headers && r.data == t.rows
      && r.extractedText == Join(HeaderLines(t.headers) + RowLines(t.rows), "\n")
      && r.fileSizeBytes == fileSize
      && r.summary == CsvSummary(|t.rows|, |t.headers|, |r.extractedText|)
  {
    if fileSize.None? {
      return Failure(path, "CSV file not found: " + path);
    }
    var delimiter := if sniffed.Some? then sniffed.value else ',';
    var table := read(delimiter);
    if table.Err? {
      return Failure(path, table.error);
    }
    var t := table.value;
    var lines := TextLines(t.headers, t.rows);
    var text := Join(lines, "\n");
    r := CsvResult(path, Basename(path), "csv", t.rows, t.headers, text, fileSize,
      CsvSummary(|t.rows|, |t.headers|, |text|), None);
  }

  // ------------------------------------------------------------ properties of the text

  /** Every row with content is rendered. */
  lemma ContentRowsRendered(rows: seq<seq<string>>)
    ensures forall i :: 0 <= i < |rows| && HasContent(rows[i]) ==> RowLine(rows[i]) in RowLines(rows)
  {
    FlatMapMembers(RowEntry, rows);
    forall i | 0 <= i < |rows| && HasContent(rows[i]) ensures RowLine(rows[i]) in RowLines(rows) {
      assert RowLine(rows[i]) in RowEntry(rows[i]);
    }
  }

  /** Every rendered line is the line of some row with content. */
  lemma RenderedLinesFromRows(rows: seq<seq<string>>)
    ensures forall line :: line in RowLines(rows) ==> exists i :: 0 <= i < |rows| && HasContent(rows[i]) && line == RowLine(rows[i])
  {
    FlatMapMembers(RowEntry, rows);
  }

  /** A row has content exactly when it has a cell that is not all whitespace. */
  lemma {:induction false} HasContentIffNotBlank(row: seq<string>)
    ensures HasContent(row) <==> exists j :: 0 <= j < |row| && !IsBlank(row[j])
  {
    if row != [] {
      var n := |row| - 1;
      HasContentIffNotBlank(row[..n]);
      StripEmptyIffBlank(row[n]);
      if exists j :: 0 <= j < |row| && !IsBlank(row[j]) {
        var j :| 0 <= j < |row| && !IsBlank(row[j]);
        if j < n {
          assert row[..n][j] == row[j];
        }
      }
      if exists j :: 0 <= j < n && !IsBlank(row[..n][j]) {
        var j :| 0 <= j < n && !IsBlank(row[..n][j]);
        assert row[j] == row[..n][j];
      }
    }
  }

  /** With headers, the text starts with the header line and a dash line exactly as long. */
  lemma HeaderUnderline(headers: seq<string>, rows: seq<seq<string>>)
    requires headers != []
    ensures var lines := HeaderLines(headers) + RowLines(rows);
      |lines| >= 2 && lines[0] == Join(headers, " | ")
      && |lines[1]| == |lines[0]| && forall k :: 0 <= k < |lines[1]| ==> lines[1][k] == '-'
  {
  }

  /** Without headers and with only blank rows, the text is empty. */
  lemma {:induction false} NoContentNoText(rows: seq<seq<string>>)
    requires forall i :: 0 <= i < |rows| ==> !HasContent(rows[i])
    ensures RowLines(rows) == []
    ensures Join(HeaderLines([]) + RowLines(rows), "\n") == ""
  {
    if rows != [] {
      NoContentNoText(rows[..|rows| - 1]);
    }
  }

  /** There are as many rendered lines as rows with content, never more than rows. */
  lemma {:induction false} RowLinesCount(rows: seq<seq<string>>)
    ensures |RowLines(rows)| == ContentRows(rows)
    ensures ContentRows(rows) <= |rows|
  {
    if rows != [] {
      RowLinesCount(rows[..|rows| - 1]);
    }
  }

  function ContentRows(rows: seq<seq<string>>): nat
  {
    if rows == [] then 0
    else ContentRows(rows[..|rows| - 1]) + (if HasContent(rows[|rows| - 1]) then 1 else 0)
  }

  // ------------------------------------------------------------ supported formats

  const SupportedFormats: seq<string> := [".csv", ".tsv"]

  /** is_supported: the extension of the lower-cased path is .csv or .tsv. */
  predicate IsSupported(path: string)
  {
    SplitExt(Lower(path)) in SupportedFormats
  }

  lemma SupportedEndsWith(path: string)
    requires IsSupported(path)
    ensures EndsWith(Lower(path), ".csv") || EndsWith(Lower(path), ".tsv")
  {
  }
}

// The Excel parser. The spreadsheet libraries are reduced to what they hand back: the workbook's
// document properties and sheet names, and for each sheet the table pandas reads (its column
// count and rows of cells already turned into strings, empty cells as "") or the message of the
// exception reading it raised.

module ExcelParsing {
  import opened Wrappers
  import opened Strings
  import CsvParsing

  datatype SheetTable = SheetTable(columns: nat, rows: seq<seq<string>>)

  /** One sheet of the workbook: its name and what reading it with pandas gives. */
  datatype Sheet = Sheet(name: string, read: Result<SheetTable, string>)

  datatype WorkbookProperties = WorkbookProperties(
    creator: Option<string>, title: Option<string>, subject: Option<string>,
    description: Option<string>, keywords: Option<string>, lastModifiedBy: Option<string>,
    created: Option<string>, modified: Option<string>, version: Option<string>)

  datatype Workbook = Workbook(properties: WorkbookProperties, sheets: seq<Sheet>)

  datatype ExcelMetadata = ExcelMetadata(
    creator: string, title: string, subject: string, description: string, keywords: string,
    lastModifiedBy: string, created: string, modified: string, version: string)

  /** A worksheet record; `error` is present exactly when the sheet could not be read. */
  datatype WorksheetData = WorksheetData(
    sheetName: string, data: seq<seq<string>>, textContent: string,
    maxRow: nat, maxColumn: nat, error: Option<string>)

  datatype ExcelSummary = ExcelSummary(totalWorksheets: nat, totalCellsWithData: nat, totalTextLength: nat)

  datatype ExcelResult = ExcelResult(
    filePath: string, fileName: string, fileType: string,
    worksheets: seq<WorksheetData>, extractedText: string, metadata: Option<ExcelMetadata>,
    summary: ExcelSummary, error: Option<string>)

  function Failure(path: string, message: string): ExcelResult
  {
    ExcelResult(path, Basename(path), "excel", [], "", None, ExcelSummary(0, 0, 0),
      Some("Failed to parse Excel file: " + message))
  }

  /** The metadata dict: every missing property becomes "". */
  function Metadata(p: WorkbookProperties): ExcelMetadata
  {
    ExcelMetadata(p.creator.GetOr(""), p.title.GetOr(""), p.subject.GetOr(""), p.description.GetOr(""),
      p.keywords.GetOr(""), p.lastModifiedBy.GetOr(""), p.created.GetOr(""), p.modified.GetOr(""),
      p.version.GetOr(""))
  }

  // ------------------------------------------------------------ rows

  /** The stripped cells of a row that are not blank, in order. */
  function FilledCells(row: seq<string>): (r: seq<string>)
    ensures |r| <= |row|
  {
    if row == [] then []
    else
      var cell := Strip(row[|row| - 1]);
      FilledCells(row[..|row| - 1]) + (if cell != "" then [cell] else [])
  }

  function RowLine(row: seq<string>): string
  {
    Join(FilledCells(row), " | ")
  }

  /** One line per row with some non-blank cell. */
  function SheetLines(rows: seq<seq<string>>): seq<string>
  {
    if rows == [] then []
    else
      var last := rows[|rows| - 1];
      SheetLines(rows[..|rows| - 1]) + (if CsvParsing.HasContent(last) then [RowLine(last)] else [])
  }

  /** The non-blank cells of the rows. */
  function CellCount(rows: seq<seq<string>>): nat
  {
    if rows == [] then 0 else CellCount(rows[..|rows| - 1]) + |FilledCells(rows[|rows| - 1])|
  }

  /** The comprehension inside the row loop: the stripped non-blank cells. */
  method CollectFilled(row: seq<string>) returns (cells: seq<string>)
    ensures cells == FilledCells(row)
  {
    cells := [];
    for j := 0 to |row|
      invariant cells == FilledCells(row[..j])
    {
      var cell := Strip(row[j]);
      FilledStep(row, j, cell);
      if cell != "" {
        cells := cells + [cell];
      }
    }
    assert row[..|row|] == row;
  }

  lemma FilledStep(row: seq<string>, j: nat, cell: string)
    requires j < |row| && cell == Strip(row[j])
    ensures FilledCells(row[..j + 1]) == FilledCells(row[..j]) + (if cell != "" then [cell] else [])
  {
    assert row[..j + 1][..j] == row[..j];
  }

  /** The text_lines loop of one worksheet. */
  method RenderSheet(rows: seq<seq<string>>) returns (lines: seq<string>)
    ensures lines == SheetLines(rows)
  {
    lines := [];
    for i := 0 to |rows|
      invariant lines == SheetLines(rows[..i])
    {
      var keep := CsvParsing.CellHasContent(rows[i]);
      var cells := CollectFilled(rows[i]);
      assert rows[..i + 1][..i] == rows[..i];
      if keep {
        lines := lines + [Join(cells, " | ")];
      }
    }
    assert rows[..|rows|] == rows;
  }

  // ------------------------------------------------------------ sheets

  function SheetText(t: SheetTable): string
  {
    Join(SheetLines(t.rows), "\n")
  }

  /** The worksheet record of one sheet. */
  function SheetRecord(s: Sheet): WorksheetData
  {
    match s.read
    case Ok(t) => WorksheetData(s.name, t.rows, SheetText(t), |t.rows|, t.columns, None)
    case Err(e) => WorksheetData(s.name, [], "", 0, 0, Some("Failed to read worksheet " + s.name + ": " + e))
  }

  /** What one sheet adds to all_text: its header line and text, when it could be read. */
  function SheetContribution(s: Sheet): seq<string>
  {
    match s.read
    case Ok(t) => ["[WORKSHEET: " + s.name + "]\n" + SheetText(t)]
    case Err(_) => []
  }

  /** The all_text list: one entry per readable sheet, in workbook order. */
  function Contributions(sheets: seq<Sheet>): seq<string>
  {
    FlatMap(SheetContribution, sheets)
  }

  /** The non-blank cells of the readable sheets. */
  function SheetCells(sheets: seq<Sheet>): nat
  {
    if sheets == [] then 0
    else
      var s := sheets[|sheets| - 1];
      SheetCells(sheets[..|sheets| - 1]) + (match s.read case Ok(t) => CellCount(t.rows) case Err(_) => 0)
  }

  /** One iteration of the sheet loop. */
  method ReadSheet(s: Sheet) returns (record: WorksheetData, contribution: seq<string>, cells: nat)
    ensures record == SheetRecord(s)
    ensures contribution == SheetContribution(s)
    ensures cells == match s.read case Ok(t) => CellCount(t.rows) case Err(_) => 0
  {
    match s.read {
      case Err(e) =>
        record := WorksheetData(s.name, [], "", 0, 0, Some("Failed to read worksheet " + s.name + ": " + e));
        contribution := [];
        cells := 0;
      case Ok(t) =>
        var lines := RenderSheet(t.rows);
        var text := Join(lines, "\n");
        record := WorksheetData(s.name, t.rows, text, |t.rows|, t.columns, None);
        contribution := ["[WORKSHEET: " + s.name + "]\n" + text];
        cells := CellCount(t.rows);
    }
  }

  /** The sheet loop of parse_file. */
  method ReadSheets(sheets: seq<Sheet>) returns (records: seq<WorksheetData>, allText: seq<string>, totalCells: nat)
    ensures |records| == |sheets|
    ensures forall i :: 0 <= i < |sheets| ==> records[i] == SheetRecord(sheets[i])
    ensures allText == Contributions(sheets)
    ensures totalCells == SheetCells(sheets)
  {
    records := [];
    allText := [];
    totalCells := 0;
    for i := 0 to |sheets|
      invariant |records| == i
      invariant forall k :: 0 <= k < i ==> records[k] == SheetRecord(sheets[k])
      invariant allText == Contributions(sheets[..i])
      invariant totalCells == SheetCells(sheets[..i])
    {
      var record, contribution, cells := ReadSheet(sheets[i]);
      SheetsStep(sheets, i, contribution, cells);
      RecordsStep(sheets, i, records, record);
      records := records + [record];
      allText := allText + contribution;
      totalCells := totalCells + cells;
    }
    assert sheets[..|sheets|] == sheets;
  }

  lemma SheetsStep(sheets: seq<Sheet>, i: nat, contribution: seq<string>, cells: nat)
    requires i < |sheets|
    requires contribution == SheetContribution(sheets[i])
    requires cells == match sheets[i].read case Ok(t) => CellCount(t.rows) case Err(_) => 0
    ensures Contributions(sheets[..i + 1]) == Contributions(sheets[..i]) + contribution
    ensures SheetCells(sheets[..i + 1]) == SheetCells(sheets[..i]) + cells
  {
    assert sheets[..i + 1][..i] == sheets[..i];
  }

  lemma RecordsStep(sheets: seq<Sheet>, i: nat, records: seq<WorksheetData>, record: WorksheetData)
    requires i < |sheets| && |records| == i
    requires forall k :: 0 <= k < i ==> records[k] == SheetRecord(sheets[k])
    requires record == SheetRecord(sheets[i])
    ensures forall k :: 0 <= k < i + 1 ==> (records + [record])[k] == SheetRecord(sheets[k])
  {
    var next := records + [record];
    forall k | 0 <= k < i + 1 ensures next[k] == SheetRecord(sheets[k]) {
      if k < i {
        assert next[k] == records[k];
      }
    }
  }

  /**
   * parse_file. `fileExists` says whether the path exists; `loaded` is the workbook, or the
   * message of the exception loading it raised.
   */
  method ParseExcel(path: string, fileExists: bool, loaded: Result<Workbook, string>) returns (r: ExcelResult)
    ensures !fileExists ==> r == Failure(path, "Excel file not found: " + path)
    ensures fileExists && loaded.Err? ==> r == Failure(path, loaded.error)
    ensures fileExists && loaded.Ok? ==>
      var sheets := loaded.value.sheets;
      r.filePath == path && r.fileName == Basename(path) && r.fileType == "excel" && r.error.None?
      && r.metadata == Some(Metadata(loaded.value.properties))
      && |r.worksheets| == |sheets|
      && (forall i :: 0 <= i < |sheets| ==> r.worksheets[i] == SheetRecord(sheets[i]))
      && r.extractedText == Join(Contributions(sheets), "\n\n")
      && r.summary == ExcelSummary(|sheets|, SheetCells(sheets), |r.extractedText|)
  {
    if !fileExists {
      return Failure(path, "Excel file not found: " + path);
    }
    if loaded.Err? {
      return Failure(path, loaded.error);
    }
    var wb := loaded.value;
    var records, allText, totalCells := ReadSheets(wb.sheets);
    var text := Join(allText, "\n\n");
    r := ExcelResult(path, Basename(path), "excel", records, text, Some(Metadata(wb.properties)),
      ExcelSummary(|wb.sheets|, totalCells, |text|), None);
  }

  // ------------------------------------------------------------ properties

  /** A row is rendered exactly when it has a cell that the cell count counts. */
  lemma {:induction false} RenderedIffCounted(row: seq<string>)
    ensures CsvParsing.HasContent(row) <==> FilledCells(row) != []
  {
    if row != [] {
      RenderedIffCounted(row[..|row| - 1]);
    }
  }

  /** No rendered cell is blank, and the cell count is the number of cells over all lines. */
  lemma {:induction false} FilledCellsNonBlank(row: seq<string>)
    ensures forall k :: 0 <= k < |FilledCells(row)| ==> FilledCells(row)[k] != ""
  {
    if row != [] {
      FilledCellsNonBlank(row[..|row| - 1]);
    }
  }

  /** The number of readable sheets is the number of text contributions. */
  lemma {:induction false} ContributionsCount(sheets: seq<Sheet>)
    ensures |Contributions(sheets)| == ReadableSheets(sheets)
    ensures ReadableSheets(sheets) <= |sheets|
  {
    if sheets != [] {
      ContributionsCount(sheets[..|sheets| - 1]);
    }
  }

  function ReadableSheets(sheets: seq<Sheet>): nat
  {
    if sheets == [] then 0
    else ReadableSheets(sheets[..|sheets| - 1]) + (if sheets[|sheets| - 1].read.Ok? then 1 else 0)
  }

  lemma {:induction false} SheetCellsAppend(xs: seq<Sheet>, ys: seq<Sheet>)
    ensures SheetCells(xs + ys) == SheetCells(xs) + SheetCells(ys)
    decreases |ys|
  {
    if ys == [] {
      assert xs + ys == xs;
    } else {
      var ys' := ys[..|ys| - 1];
      SheetCellsAppend(xs, ys');
      assert (xs + ys)[..|xs + ys| - 1] == xs + ys';
    }
  }

  /** An unreadable sheet adds neither text nor cells, wherever it stands. */
  lemma UnreadableSheetIgnored(xs: seq<Sheet>, s: Sheet, ys: seq<Sheet>)
    requires s.read.Err?
    ensures Contributions(xs + [s] + ys) == Contributions(xs + ys)
    ensures SheetCells(xs + [s] + ys) == SheetCells(xs + ys)
  {
    assert [s][..0] == [];
    FlatMapAppend(SheetContribution, xs + [s], ys);
    FlatMapAppend(SheetContribution, xs, [s]);
    FlatMapAppend(SheetContribution, xs, ys);
    SheetCellsAppend(xs + [s], ys);
    SheetCellsAppend(xs, [s]);
    SheetCellsAppend(xs, ys);
  }

  /** Every readable sheet's contribution starts with its name in the worksheet header. */
  lemma ContributionHeader(s: Sheet)
    requires s.read.Ok?
    ensures StartsWith(SheetContribution(s)[0], "[WORKSHEET: " + s.name + "]\n")
  {
    var h := "[WORKSHEET: " + s.name + "]\n";
    assert SheetContribution(s)[0][..|h|] == h;
  }

  const SupportedFormats: seq<string> := [".xlsx", ".xls"]

  /** is_supported: the extension of the lower-cased path is .xlsx or .xls. */
  predicate IsSupported(path: string)
  {
    SplitExt(Lower(path)) in SupportedFormats
  }
}

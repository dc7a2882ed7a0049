// The Word (DOC/DOCX) parser. python-docx is reduced to what it hands back: the core document
// properties, the body paragraphs (raw text and style name, if any) and the tables (the column
// count and, per row, the raw text of each cell).

module DocParsing {
  import opened Wrappers
  import opened Strings
  import CsvParsing

  datatype Paragraph = Paragraph(text: string, style: Option<string>)

  datatype DocTable = DocTable(columns: nat, rows: seq<seq<string>>)

  /** The core properties; `created`/`modified` are already rendered with `str`. */
  datatype CoreProperties = CoreProperties(
    title: Option<string>, author: Option<string>, subject: Option<string>,
    keywords: Option<string>, comments: Option<string>, created: Option<string>,
    modified: Option<string>, lastModifiedBy: Option<string>, revision: nat, version: Option<string>)

  datatype Document = Document(properties: CoreProperties, paragraphs: seq<Paragraph>, tables: seq<DocTable>)

  datatype DocMetadata = DocMetadata(
    title: string, author: string, subject: string, keywords: string, comments: string,
    created: string, modified: string, lastModifiedBy: string, revision: nat, version: string)

  datatype ParagraphData = ParagraphData(paragraphNumber: nat, text: string, style: string, textLength: nat)

  datatype TableData = TableData(tableNumber: nat, rows: nat, columns: nat, data: seq<seq<string>>)

  datatype DocSummary = DocSummary(totalParagraphs: nat, totalTables: nat, totalTextLength: nat)

  /** The parser's record; `metadata` is None for the empty dict of the failure path. */
  datatype DocResult = DocResult(
    filePath: string, fileName: string, fileType: string,
    paragraphs: seq<ParagraphData>, tables: seq<TableData>, extractedText: string,
    metadata: Option<DocMetadata>, summary: DocSummary, error: Option<string>)

  function Failure(path: string, message: string): DocResult
  {
    DocResult(path, Basename(path), "docx", [], [], "", None, DocSummary(0, 0, 0),
      Some("Failed to parse DOC/DOCX file: " + message))
  }

  /** The metadata dict: missing properties become "" and a missing revision 0. */
  function Metadata(p: CoreProperties): DocMetadata
  {
    DocMetadata(p.title.GetOr(""), p.author.GetOr(""), p.subject.GetOr(""), p.keywords.GetOr(""),
      p.comments.GetOr(""), p.created.GetOr(""), p.modified.GetOr(""), p.lastModifiedBy.GetOr(""),
      p.revision, p.version.GetOr(""))
  }

  // ------------------------------------------------------------ paragraphs

  /** What a paragraph leaves for the record: its stripped text and style name, unless blank. */
  function KeptEntry(p: Paragraph): seq<(string, string)>
  {
    var text := Strip(p.text);
    if text != "" then [(text, p.style.GetOr("Normal"))] else []
  }

  /** The non-blank paragraphs, stripped, in document order. */
  function Kept(ps: seq<Paragraph>): seq<(string, string)>
  {
    FlatMap(KeptEntry, ps)
  }

  /** Kept paragraphs numbered from 1. */
  function Numbered(kept: seq<(string, string)>): (r: seq<ParagraphData>)
    ensures |r| == |kept|
  {
    seq(|kept|, k requires 0 <= k < |kept| => ParagraphData(k + 1, kept[k].0, kept[k].1, |kept[k].0|))
  }

  /** The paragraph records: the non-blank paragraphs, stripped and numbered from 1. */
  function ParagraphRecords(ps: seq<Paragraph>): seq<ParagraphData>
  {
    Numbered(Kept(ps))
  }

  /** The paragraph part of all_text. */
  function Texts(records: seq<ParagraphData>): (r: seq<string>)
    ensures |r| == |records|
  {
    seq(|records|, k requires 0 <= k < |records| => records[k].text)
  }

  /** The paragraph loop of parse_file. */
  method CollectParagraphs(ps: seq<Paragraph>) returns (records: seq<ParagraphData>, allText: seq<string>, count: nat)
    ensures records == ParagraphRecords(ps)
    ensures allText == Texts(records)
    ensures count == |records|
  {
    records := [];
    allText := [];
    count := 0;
    for i := 0 to |ps|
      invariant records == ParagraphRecords(ps[..i])
      invariant allText == Texts(records)
      invariant count == |records|
    {
      var text := Strip(ps[i].text);
      KeptStep(ps, i, text);
      if text != "" {
        var record := ParagraphData(count + 1, text, if ps[i].style.Some? then ps[i].style.value else "Normal", |text|);
        NumberedSnoc(Kept(ps[..i]), (text, ps[i].style.GetOr("Normal")));
        TextsSnoc(records, record);
        records := records + [record];
        allText := allText + [text];
        count := count + 1;
      }
    }
    assert ps[..|ps|] == ps;
  }

  lemma TextsSnoc(records: seq<ParagraphData>, record: ParagraphData)
    ensures Texts(records + [record]) == Texts(records) + [record.text]
  {
    assert forall k :: 0 <= k < |records| ==> (records + [record])[k] == records[k];
  }

  lemma KeptStep(ps: seq<Paragraph>, i: nat, text: string)
    requires i < |ps| && text == Strip(ps[i].text)
    ensures Kept(ps[..i + 1]) == Kept(ps[..i]) + (if text != "" then [(text, ps[i].style.GetOr("Normal"))] else [])
  {
    assert ps[..i + 1][..i] == ps[..i];
  }

  lemma NumberedSnoc(kept: seq<(string, string)>, e: (string, string))
    ensures Numbered(kept + [e]) == Numbered(kept) + [ParagraphData(|kept| + 1, e.0, e.1, |e.0|)]
  {
    assert forall k :: 0 <= k < |kept| ==> (kept + [e])[k] == kept[k];
  }

  // ------------------------------------------------------------ tables

  /** The stripped cell texts of each row. */
  function StrippedRows(rows: seq<seq<string>>): (r: seq<seq<string>>)
    ensures |r| == |rows|
  {
    if rows == [] then [] else StrippedRows(rows[..|rows| - 1]) + [CsvParsing.StripCells(rows[|rows| - 1])]
  }

  function TableRecord(number: nat, t: DocTable): TableData
  {
    TableData(number, |t.rows|, t.columns, StrippedRows(t.rows))
  }

  /** The rows of a table joined by "\n", the cells of a row by " | ". */
  function TableText(data: seq<seq<string>>): string
  {
    Join(seq(|data|, i requires 0 <= i < |data| => Join(data[i], " | ")), "\n")
  }

  /** What table `number` adds to all_text. */
  function TableContribution(number: nat, data: seq<seq<string>>): string
  {
    "\n[TABLE " + NatToString(number) + "]\n" + TableText(data) + "\n"
  }

  /** The text of table `number`. */
  function NumberedTableText(number: nat, t: DocTable): string
  {
    TableContribution(number, StrippedRows(t.rows))
  }

  /** The table records, numbered from 1 in document order. */
  function TableRecords(ts: seq<DocTable>): (r: seq<TableData>)
    ensures |r| == |ts|
  {
    MapNumbered(TableRecord, ts)
  }

  /** The table part of all_text. */
  function TableContributions(ts: seq<DocTable>): (r: seq<string>)
    ensures |r| == |ts|
  {
    MapNumbered(NumberedTableText, ts)
  }

  /** The cell loop of one row. */
  method StripRow(row: seq<string>) returns (cells: seq<string>)
    ensures cells == CsvParsing.StripCells(row)
  {
    cells := [];
    for j := 0 to |row|
      invariant |cells| == j
      invariant forall k :: 0 <= k < j ==> cells[k] == CsvParsing.StripCells(row)[k]
    {
      var cell := Strip(row[j]);
      cells := cells + [cell];
    }
  }

  /** The row loop of one table. */
  method StripTable(rows: seq<seq<string>>) returns (data: seq<seq<string>>)
    ensures data == StrippedRows(rows)
  {
    data := [];
    for i := 0 to |rows|
      invariant data == StrippedRows(rows[..i])
    {
      var cells := StripRow(rows[i]);
      assert rows[..i + 1][..i] == rows[..i];
      data := data + [cells];
    }
    assert rows[..|rows|] == rows;
  }

  /** The table loop of parse_file. */
  method CollectTables(ts: seq<DocTable>) returns (records: seq<TableData>, texts: seq<string>, count: nat)
    ensures records == TableRecords(ts)
    ensures texts == TableContributions(ts)
    ensures count == |ts|
  {
    records := [];
    texts := [];
    count := 0;
    for i := 0 to |ts|
      invariant records == TableRecords(ts[..i])
      invariant texts == TableContributions(ts[..i])
      invariant count == i
    {
      var data := StripTable(ts[i].rows);
      TablesStep(ts, i);
      records := records + [TableData(count + 1, |ts[i].rows|, ts[i].columns, data)];
      count := count + 1;
      texts := texts + ["\n[TABLE " + NatToString(count) + "]\n" + TableText(data) + "\n"];
    }
    assert ts[..|ts|] == ts;
  }

  lemma TablesStep(ts: seq<DocTable>, i: nat)
    requires i < |ts|
    ensures TableRecords(ts[..i + 1]) == TableRecords(ts[..i]) + [TableRecord(i + 1, ts[i])]
    ensures TableContributions(ts[..i + 1]) == TableContributions(ts[..i]) + [TableContribution(i + 1, StrippedRows(ts[i].rows))]
  {
    assert ts[..i + 1][..i] == ts[..i];
  }

  // ------------------------------------------------------------ parse_file

  /** The whole text: the paragraphs, then the tables, joined by a blank line. */
  function DocumentText(d: Document): string
  {
    Join(Texts(ParagraphRecords(d.paragraphs)) + TableContributions(d.tables), "\n\n")
  }

  /**
   * parse_file. `fileExists` says whether the path exists; `loaded` is the document, or the
   * message of the exception opening it raised.
   */
  method ParseDoc(path: string, fileExists: bool, loaded: Result<Document, string>) returns (r: DocResult)
    ensures !fileExists ==> r == Failure(path, "DOC/DOCX file not found: " + path)
    ensures fileExists && loaded.Err? ==> r == Failure(path, loaded.error)
    ensures fileExists && loaded.Ok? ==>
      var d := loaded.value;
      r.filePath == path && r.fileName == Basename(path) && r.fileType == "docx" && r.error.None?
      && r.metadata == Some(Metadata(d.properties))
      && r.paragraphs == ParagraphRecords(d.paragraphs)
      && r.tables == TableRecords(d.tables)
      && r.extractedText == DocumentText(d)
      && r.summary == DocSummary(|r.paragraphs|, |r.tables|, |r.extractedText|)
  {
    if !fileExists {
      return Failure(path, "DOC/DOCX file not found: " + path);
    }
    if loaded.Err? {
      return Failure(path, loaded.error);
    }
    var d := loaded.value;
    var paragraphs, paragraphTexts, paragraphCount := CollectParagraphs(d.paragraphs);
    var tables, tableTexts, tableCount := CollectTables(d.tables);
    var text := Join(paragraphTexts + tableTexts, "\n\n");
    r := DocResult(path, Basename(path), "docx", paragraphs, tables, text, Some(Metadata(d.properties)),
      DocSummary(paragraphCount, tableCount, |text|), None);
  }

  // ------------------------------------------------------------ properties

  /** Every record's text is stripped and not empty, and its length is recorded. */
  lemma ParagraphsClean(ps: seq<Paragraph>)
    ensures forall k :: 0 <= k < |ParagraphRecords(ps)| ==>
      var rec := ParagraphRecords(ps)[k];
      rec.text != "" && Strip(rec.text) == rec.text && rec.textLength == |rec.text|
  {
    var kept := Kept(ps);
    forall k | 0 <= k < |kept| ensures kept[k].0 != "" && Strip(kept[k].0) == kept[k].0 {
      var i := KeptSource(ps, k);
      StripIdempotent(ps[i].text);
    }
  }

  /** Every non-blank paragraph is kept. */
  lemma NonBlankParagraphsKept(ps: seq<Paragraph>)
    ensures forall i :: 0 <= i < |ps| && !IsBlank(ps[i].text) ==>
      exists k :: 0 <= k < |ParagraphRecords(ps)| && ParagraphRecords(ps)[k].text == Strip(ps[i].text)
  {
    var kept := Kept(ps);
    var recs := ParagraphRecords(ps);
    forall i | 0 <= i < |ps| && !IsBlank(ps[i].text)
      ensures exists k :: 0 <= k < |recs| && recs[k].text == Strip(ps[i].text)
    {
      var k := KeptPosition(ps, i);
      assert recs[k].text == kept[k].0;
    }
  }

  /** Every record comes from a non-blank paragraph, whose style name it carries. */
  lemma KeptParagraphsNonBlank(ps: seq<Paragraph>)
    ensures forall rec :: rec in ParagraphRecords(ps) ==> exists i :: 0 <= i < |ps| && RecordOf(rec, ps[i])
  {
    var recs := ParagraphRecords(ps);
    forall rec | rec in recs ensures exists i :: 0 <= i < |ps| && RecordOf(rec, ps[i]) {
      var k :| 0 <= k < |recs| && recs[k] == rec;
      var i := KeptSource(ps, k);
      StripEmptyIffBlank(ps[i].text);
      assert RecordOf(rec, ps[i]);
    }
  }

  /** `rec` holds the stripped text and the style name of the non-blank paragraph `p`. */
  predicate RecordOf(rec: ParagraphData, p: Paragraph)
  {
    !IsBlank(p.text) && rec.text == Strip(p.text) && rec.style == p.style.GetOr("Normal")
  }

  /** Where a non-blank paragraph stands among the kept ones. */
  lemma KeptPosition(ps: seq<Paragraph>, i: nat) returns (k: nat)
    requires i < |ps| && !IsBlank(ps[i].text)
    ensures k < |Kept(ps)| && Kept(ps)[k] == (Strip(ps[i].text), ps[i].style.GetOr("Normal"))
  {
    FlatMapMembers(KeptEntry, ps);
    StripEmptyIffBlank(ps[i].text);
    var e := (Strip(ps[i].text), ps[i].style.GetOr("Normal"));
    assert e in KeptEntry(ps[i]);
    assert e in Kept(ps);
    k :| 0 <= k < |Kept(ps)| && Kept(ps)[k] == e;
  }

  /** The paragraph a kept entry comes from. */
  lemma KeptSource(ps: seq<Paragraph>, k: nat) returns (i: nat)
    requires k < |Kept(ps)|
    ensures i < |ps| && Strip(ps[i].text) != ""
    ensures Kept(ps)[k] == (Strip(ps[i].text), ps[i].style.GetOr("Normal"))
  {
    FlatMapMembers(KeptEntry, ps);
    var e := Kept(ps)[k];
    assert e in Kept(ps);
    i :| 0 <= i < |ps| && e in KeptEntry(ps[i]);
  }

  /** Table records and table texts are numbered by position, from 1. */
  lemma TablesNumbered(ts: seq<DocTable>)
    ensures forall k :: 0 <= k < |ts| ==> TableRecords(ts)[k] == TableRecord(k + 1, ts[k])
    ensures forall k :: 0 <= k < |ts| ==> TableContributions(ts)[k] == TableContribution(k + 1, StrippedRows(ts[k].rows))
  {
    MapNumberedAt(TableRecord, ts);
    MapNumberedAt(NumberedTableText, ts);
  }

  /** A table's text opens with its 1-based marker on a line of its own and ends with a newline. */
  lemma TableContributionShape(number: nat, data: seq<seq<string>>)
    ensures var c := TableContribution(number, data);
      StartsWith(c, "\n[TABLE " + NatToString(number) + "]\n") && EndsWith(c, "\n")
  {
    var head := "\n[TABLE " + NatToString(number) + "]\n";
    var c := TableContribution(number, data);
    assert c[..|head|] == head;
    assert c[|c| - 1..] == "\n";
  }

  /** A document whose paragraphs are all blank and that has no tables yields no text. */
  lemma {:induction false} BlankDocumentNoText(d: Document)
    requires forall i :: 0 <= i < |d.paragraphs| ==> IsBlank(d.paragraphs[i].text)
    requires d.tables == []
    ensures ParagraphRecords(d.paragraphs) == []
    ensures DocumentText(d) == ""
  {
    BlankParagraphsDropped(d.paragraphs);
    assert Texts([]) == [];
  }

  lemma {:induction false} BlankParagraphsDropped(ps: seq<Paragraph>)
    requires forall i :: 0 <= i < |ps| ==> IsBlank(ps[i].text)
    ensures Kept(ps) == [] && ParagraphRecords(ps) == []
  {
    if ps != [] {
      BlankParagraphsDropped(ps[..|ps| - 1]);
      StripEmptyIffBlank(ps[|ps| - 1].text);
    }
  }

  const SupportedFormats: seq<string> := [".docx", ".doc"]

  /** is_supported: the extension of the lower-cased path is .docx or .doc. */
  predicate IsSupported(path: string)
  {
    SplitExt(Lower(path)) in SupportedFormats
  }
}

// The OpenDocument Text parser. odfpy is reduced to what it hands back: the meta attributes, and
// the elements getElementsByType finds — the text paragraphs, the headings and the tables (each
// table its rows, each row its cells) — every element given by its child nodes.

module OdtParsing {
  import opened Wrappers
  import opened Strings
  import CsvParsing

  /** A node of the document tree: a text node carries data, an element carries children. */
  datatype Node = TextNode(data: string) | Element(children: seq<Node>)

  /** An element, by its child nodes. */
  type Content = seq<Node>

  type Row = seq<Content>

  type Table = seq<Row>

  /** The meta attributes; None where getAttribute finds nothing. */
  datatype MetaAttributes = MetaAttributes(
    title: Option<string>, subject: Option<string>, keywords: Option<string>,
    description: Option<string>, creator: Option<string>, date: Option<string>,
    language: Option<string>)

  datatype OdtDocument = OdtDocument(
    meta: MetaAttributes, paragraphs: seq<Content>, headings: seq<Content>, tables: seq<Table>)

  datatype OdtMetadata = OdtMetadata(
    title: string, subject: string, keywords: string, description: string,
    creator: string, date: string, language: string)

  /** A paragraph record; `kind` is "paragraph" or "heading". */
  datatype OdtParagraph = OdtParagraph(paragraphNumber: nat, text: string, kind: string, textLength: nat)

  datatype OdtTable = OdtTable(tableNumber: nat, data: seq<seq<string>>, textContent: string)

  datatype OdtSummary = OdtSummary(totalParagraphs: nat, totalTables: nat, totalTextLength: nat)

  /** The parser's record; `metadata` is None for the empty dict of the failure path. */
  datatype OdtResult = OdtResult(
    filePath: string, fileName: string, fileType: string,
    paragraphs: seq<OdtParagraph>, tables: seq<OdtTable>, extractedText: string,
    metadata: Option<OdtMetadata>, summary: OdtSummary, error: Option<string>)

  function Failure(path: string, message: string): OdtResult
  {
    OdtResult(path, Basename(path), "odt", [], [], "", None, OdtSummary(0, 0, 0),
      Some("Failed to parse ODT file: " + message))
  }

  /** The metadata dict: a missing attribute becomes "". */
  function Metadata(m: MetaAttributes): OdtMetadata
  {
    OdtMetadata(m.title.GetOr(""), m.subject.GetOr(""), m.keywords.GetOr(""),
      m.description.GetOr(""), m.creator.GetOr(""), m.date.GetOr(""), m.language.GetOr(""))
  }

  // ------------------------------------------------------------ text of an element

  /** The text of a list of child nodes: text data as is, an element by its own text, in order. */
  function NodesText(nodes: seq<Node>): string
    decreases nodes
  {
    if nodes == [] then "" else NodesText(nodes[..|nodes| - 1]) + NodeText(nodes[|nodes| - 1])
  }

  /** The text of one node. */
  function NodeText(n: Node): string
    decreases n
  {
    match n
    case TextNode(data) => data
    case Element(children) => NodesText(children)
  }

  /** The text nodes under a list of nodes, in document order. */
  function Leaves(nodes: seq<Node>): seq<string>
    decreases nodes
  {
    if nodes == [] then [] else Leaves(nodes[..|nodes| - 1]) + NodeLeaves(nodes[|nodes| - 1])
  }

  function NodeLeaves(n: Node): seq<string>
    decreases n
  {
    match n
    case TextNode(data) => [data]
    case Element(children) => Leaves(children)
  }

  /** _extract_text_from_element, on the element's child nodes. */
  method ExtractText(nodes: seq<Node>) returns (text: string)
    ensures text == NodesText(nodes)
    decreases nodes
  {
    var parts: seq<string> := [];
    for i := 0 to |nodes|
      invariant Concat(parts) == NodesText(nodes[..i])
    {
      var part: string;
      match nodes[i] {
        case TextNode(data) =>
          part := data;
        case Element(children) =>
          part := ExtractText(children);
      }
      ConcatSnoc(parts, part);
      assert nodes[..i + 1][..i] == nodes[..i];
      parts := parts + [part];
    }
    assert nodes[..|nodes|] == nodes;
    text := Concat(parts);
  }

  /** The text of the nodes is the concatenation of the text nodes beneath them, in order. */
  lemma {:induction false} TextIsLeaves(nodes: seq<Node>)
    ensures NodesText(nodes) == Concat(Leaves(nodes))
    decreases nodes
  {
    if nodes != [] {
      var init := nodes[..|nodes| - 1];
      TextIsLeaves(init);
      match nodes[|nodes| - 1] {
        case TextNode(data) =>
          ConcatSnoc(Leaves(init), data);
        case Element(children) =>
          TextIsLeaves(children);
          ConcatAppend(Leaves(init), Leaves(children));
      }
    }
  }

  /** The text of consecutive node lists is the text of each, concatenated. */
  lemma {:induction false} NodesTextAppend(a: seq<Node>, b: seq<Node>)
    ensures NodesText(a + b) == NodesText(a) + NodesText(b)
    decreases |b|
  {
    if b == [] {
      assert a + b == a;
    } else {
      var b' := b[..|b| - 1];
      NodesTextAppend(a, b');
      assert (a + b)[..|a + b| - 1] == a + b';
      assert (a + b)[|a + b| - 1] == b[|b| - 1];
    }
  }

  /** Wrapping nodes in an element (a span, a link) leaves the text unchanged. */
  lemma ElementTransparent(before: seq<Node>, inner: seq<Node>, after: seq<Node>)
    ensures NodesText(before + [Element(inner)] + after) == NodesText(before + inner + after)
  {
    NodesTextAppend(before + [Element(inner)], after);
    NodesTextAppend(before + inner, after);
    NodesTextAppend(before, inner);
    assert (before + [Element(inner)])[..|before|] == before;
  }

  // ------------------------------------------------------------ paragraphs and headings

  /** The stripped text of an element. */
  function StrippedText(e: Content): string
  {
    Strip(NodesText(e))
  }

  /** What an element leaves in the record: its stripped text, unless blank. */
  function KeptEntry(e: Content): seq<string>
  {
    var text := StrippedText(e);
    if text != "" then [text] else []
  }

  /** The stripped texts of the non-blank elements, in document order. */
  function Kept(elems: seq<Content>): seq<string>
  {
    FlatMap(KeptEntry, elems)
  }

  /** Kept texts of one kind, numbered on from `start`. */
  function NumberedFrom(start: nat, texts: seq<string>, kind: string): (r: seq<OdtParagraph>)
    ensures |r| == |texts|
  {
    seq(|texts|, k requires 0 <= k < |texts| => OdtParagraph(start + k + 1, texts[k], kind, |texts[k]|))
  }

  /** Kept texts as they enter all_text, each behind `marker`. */
  function Marked(marker: string, texts: seq<string>): (r: seq<string>)
    ensures |r| == |texts|
  {
    seq(|texts|, k requires 0 <= k < |texts| => marker + texts[k])
  }

  /** The paragraph records: the paragraphs, then the headings, numbered from 1. */
  function ParagraphRecords(d: OdtDocument): seq<OdtParagraph>
  {
    var p := Kept(d.paragraphs);
    NumberedFrom(0, p, "paragraph") + NumberedFrom(|p|, Kept(d.headings), "heading")
  }

  /** One of the two element loops of parse_file, numbering on from `start`. */
  method CollectElements(elems: seq<Content>, kind: string, marker: string, start: nat)
    returns (records: seq<OdtParagraph>, texts: seq<string>)
    ensures records == NumberedFrom(start, Kept(elems), kind)
    ensures texts == Marked(marker, Kept(elems))
  {
    records := [];
    texts := [];
    assert elems[..0] == [];
    for i := 0 to |elems|
      invariant records == NumberedFrom(start, Kept(elems[..i]), kind)
      invariant texts == Marked(marker, Kept(elems[..i]))
    {
      var text := ReadStripped(elems[i]);
      KeptStep(elems, i, text);
      if text != "" {
        assert Kept(elems[..i + 1]) == Kept(elems[..i]) + [text];
        NumberedSnoc(start, Kept(elems[..i]), text, kind);
        MarkedSnoc(marker, Kept(elems[..i]), text);
        records := records + [OdtParagraph(start + |records| + 1, text, kind, |text|)];
        texts := texts + [marker + text];
      } else {
        assert Kept(elems[..i + 1]) == Kept(elems[..i]);
      }
    }
    assert elems[..|elems|] == elems;
  }

  lemma KeptStep(elems: seq<Content>, i: nat, text: string)
    requires i < |elems| && text == StrippedText(elems[i])
    ensures Kept(elems[..i + 1]) == Kept(elems[..i]) + (if text != "" then [text] else [])
  {
    FlatMapStep(KeptEntry, elems, i);
  }

  lemma NumberedSnoc(start: nat, texts: seq<string>, text: string, kind: string)
    ensures NumberedFrom(start, texts + [text], kind)
      == NumberedFrom(start, texts, kind) + [OdtParagraph(start + |texts| + 1, text, kind, |text|)]
  {
    assert forall k :: 0 <= k < |texts| ==> (texts + [text])[k] == texts[k];
  }

  lemma MarkedSnoc(marker: string, texts: seq<string>, text: string)
    ensures Marked(marker, texts + [text]) == Marked(marker, texts) + [marker + text]
  {
    assert forall k :: 0 <= k < |texts| ==> (texts + [text])[k] == texts[k];
  }

  // ------------------------------------------------------------ tables

  /** The stripped cell texts of a row. */
  function RowData(row: Row): (r: seq<string>)
    ensures |r| == |row|
  {
    MapSeq(StrippedText, row)
  }

  /** table_data["data"]: every row, blank or not. */
  function TableRows(t: Table): (r: seq<seq<string>>)
    ensures |r| == |t|
  {
    MapSeq(RowData, t)
  }

  /** The line a row adds to the table text: its cells, when one is not blank. */
  function RowLineEntry(cells: seq<string>): seq<string>
  {
    if CsvParsing.HasContent(cells) then [Join(cells, " | ")] else []
  }

  function TableLines(data: seq<seq<string>>): seq<string>
  {
    FlatMap(RowLineEntry, data)
  }

  /** table_data["text_content"]. */
  function TableContent(t: Table): string
  {
    Join(TableLines(TableRows(t)), "\n")
  }

  function TableRecord(number: nat, t: Table): OdtTable
  {
    OdtTable(number, TableRows(t), TableContent(t))
  }

  /** What table `number` adds to all_text: nothing when its text is empty. */
  function TableEntry(number: nat, t: Table): seq<string>
  {
    var content := TableContent(t);
    if content != "" then ["\n[TABLE " + NatToString(number) + "]\n" + content + "\n"] else []
  }

  /** The table records, numbered from 1 over every table. */
  function TableRecords(ts: seq<Table>): (r: seq<OdtTable>)
    ensures |r| == |ts|
  {
    MapNumbered(TableRecord, ts)
  }

  /** The table part of all_text. */
  function TableTexts(ts: seq<Table>): seq<string>
  {
    if ts == [] then [] else TableTexts(ts[..|ts| - 1]) + TableEntry(|ts|, ts[|ts| - 1])
  }

  /** The cell loop of one row. */
  method ReadRow(row: Row) returns (cells: seq<string>)
    ensures cells == RowData(row)
  {
    cells := [];
    for j := 0 to |row|
      invariant cells == RowData(row[..j])
    {
      var text := ReadStripped(row[j]);
      MapSeqStep(StrippedText, row, j);
      cells := cells + [text];
    }
    assert row[..|row|] == row;
  }

  /** The stripped text of one element. */
  method ReadStripped(e: Content) returns (text: string)
    ensures text == StrippedText(e)
  {
    var content := ExtractText(e);
    text := Strip(content);
  }

  /** The row loop of one table. */
  method ReadTable(t: Table) returns (data: seq<seq<string>>, content: string)
    ensures data == TableRows(t)
    ensures content == TableContent(t)
  {
    data := [];
    var lines: seq<string> := [];
    for i := 0 to |t|
      invariant data == TableRows(t[..i])
      invariant lines == TableLines(data)
    {
      var cells := ReadRow(t[i]);
      var keep := CsvParsing.CellHasContent(cells);
      MapSeqStep(RowData, t, i);
      FlatMapSnoc(RowLineEntry, data, cells);
      data := data + [cells];
      if keep {
        lines := lines + [Join(cells, " | ")];
      }
    }
    assert t[..|t|] == t;
    content := Join(lines, "\n");
  }

  /** The table loop of parse_file. */
  method CollectTables(ts: seq<Table>) returns (records: seq<OdtTable>, texts: seq<string>, count: nat)
    ensures records == TableRecords(ts)
    ensures texts == TableTexts(ts)
    ensures count == |ts|
  {
    records := [];
    texts := [];
    count := 0;
    for i := 0 to |ts|
      invariant records == TableRecords(ts[..i])
      invariant texts == TableTexts(ts[..i])
      invariant count == i
    {
      var data, content := ReadTable(ts[i]);
      TablesStep(ts, i);
      records := records + [OdtTable(count + 1, data, content)];
      if content != "" {
        texts := texts + ["\n[TABLE " + NatToString(count + 1) + "]\n" + content + "\n"];
      }
      count := count + 1;
    }
    assert ts[..|ts|] == ts;
  }

  lemma TablesStep(ts: seq<Table>, i: nat)
    requires i < |ts|
    ensures TableRecords(ts[..i + 1]) == TableRecords(ts[..i]) + [TableRecord(i + 1, ts[i])]
    ensures TableTexts(ts[..i + 1]) == TableTexts(ts[..i]) + TableEntry(i + 1, ts[i])
  {
    assert ts[..i + 1][..i] == ts[..i];
  }

  // ------------------------------------------------------------ parse_file

  /** The whole text: paragraphs, then headings behind "# ", then tables, joined by a blank line. */
  function DocumentText(d: OdtDocument): string
  {
    Join(Marked("", Kept(d.paragraphs)) + Marked("# ", Kept(d.headings)) + TableTexts(d.tables), "\n\n")
  }

  /**
   * parse_file. `fileExists` says whether the path exists; `loaded` is the document, or the
   * message of the exception loading it raised.
   */
  method ParseOdt(path: string, fileExists: bool, loaded: Result<OdtDocument, string>) returns (r: OdtResult)
    ensures !fileExists ==> r == Failure(path, "ODT file not found: " + path)
    ensures fileExists && loaded.Err? ==> r == Failure(path, loaded.error)
    ensures fileExists && loaded.Ok? ==>
      var d := loaded.value;
      r.filePath == path && r.fileName == Basename(path) && r.fileType == "odt" && r.error.None?
      && r.metadata == Some(Metadata(d.meta))
      && r.paragraphs == ParagraphRecords(d)
      && r.tables == TableRecords(d.tables)
      && r.extractedText == DocumentText(d)
      && r.summary == OdtSummary(|r.paragraphs|, |r.tables|, |r.extractedText|)
  {
    if !fileExists {
      return Failure(path, "ODT file not found: " + path);
    }
    if loaded.Err? {
      return Failure(path, loaded.error);
    }
    var d := loaded.value;
    var paragraphs, paragraphTexts := CollectElements(d.paragraphs, "paragraph", "", 0);
    var headings, headingTexts := CollectElements(d.headings, "heading", "# ", |paragraphs|);
    var tables, tableTexts, tableCount := CollectTables(d.tables);
    var text := Join(paragraphTexts + headingTexts + tableTexts, "\n\n");
    r := OdtResult(path, Basename(path), "odt", paragraphs + headings, tables, text,
      Some(Metadata(d.meta)), OdtSummary(|paragraphs| + |headings|, tableCount, |text|), None);
  }

  // ------------------------------------------------------------ properties

  /** Records are numbered 1, 2, … in order; the paragraphs come first, then the headings. */
  lemma HeadingsFollowParagraphs(d: OdtDocument)
    ensures var recs := ParagraphRecords(d);
      |recs| == |Kept(d.paragraphs)| + |Kept(d.headings)|
      && forall k :: 0 <= k < |recs| ==>
        recs[k].paragraphNumber == k + 1
        && (recs[k].kind == "heading" <==> k >= |Kept(d.paragraphs)|)
        && recs[k].textLength == |recs[k].text|
  {
  }

  /** Every kept text is stripped and not empty. */
  lemma KeptClean(elems: seq<Content>)
    ensures forall text :: text in Kept(elems) ==> text != "" && Strip(text) == text
  {
    FlatMapMembers(KeptEntry, elems);
    forall text | text in Kept(elems) ensures text != "" && Strip(text) == text {
      var i :| 0 <= i < |elems| && text in KeptEntry(elems[i]);
      KeptEntryClean(elems[i]);
    }
  }

  lemma KeptEntryClean(e: Content)
    ensures forall text :: text in KeptEntry(e) ==> text != "" && Strip(text) == text
  {
    var raw := NodesText(e);
    StripIdempotent(raw);
  }

  /** An element is kept exactly when its text is not all whitespace. */
  lemma NonBlankKept(elems: seq<Content>)
    ensures forall i :: 0 <= i < |elems| && !IsBlank(NodesText(elems[i])) ==> Strip(NodesText(elems[i])) in Kept(elems)
    ensures forall text :: text in Kept(elems) ==> exists i :: 0 <= i < |elems| && !IsBlank(NodesText(elems[i])) && text == Strip(NodesText(elems[i]))
  {
    FlatMapMembers(KeptEntry, elems);
    forall i | 0 <= i < |elems| && !IsBlank(NodesText(elems[i])) ensures Strip(NodesText(elems[i])) in Kept(elems) {
      StripEmptyIffBlank(NodesText(elems[i]));
      assert Strip(NodesText(elems[i])) in KeptEntry(elems[i]);
    }
    forall text | text in Kept(elems)
      ensures exists i :: 0 <= i < |elems| && !IsBlank(NodesText(elems[i])) && text == Strip(NodesText(elems[i]))
    {
      var i :| 0 <= i < |elems| && text in KeptEntry(elems[i]);
      StripEmptyIffBlank(NodesText(elems[i]));
    }
  }

  /** Every table gets a record, numbered by position from 1, with every one of its rows. */
  lemma TablesNumbered(ts: seq<Table>)
    ensures forall k :: 0 <= k < |ts| ==>
      TableRecords(ts)[k].tableNumber == k + 1 && |TableRecords(ts)[k].data| == |ts[k]|
  {
    MapNumberedAt(TableRecord, ts);
  }

  /** Row i of the table data is row i of the table, its cells stripped. */
  lemma TableRowsAt(t: Table)
    ensures forall i :: 0 <= i < |t| ==> TableRows(t)[i] == RowData(t[i])
    ensures forall i :: 0 <= i < |t| ==> |TableRows(t)[i]| == |t[i]|
  {
    MapSeqAt(RowData, t);
  }

  /** Cell j of a row's data is the stripped text of cell j. */
  lemma RowDataAt(row: Row)
    ensures forall j :: 0 <= j < |row| ==> RowData(row)[j] == StrippedText(row[j])
  {
    MapSeqAt(StrippedText, row);
  }

  /** A table has text exactly when one of its rows has a non-blank cell. */
  lemma TableContentIffRow(t: Table)
    ensures TableContent(t) != "" <==> exists i :: 0 <= i < |t| && CsvParsing.HasContent(TableRows(t)[i])
  {
    var data := TableRows(t);
    var lines := TableLines(data);
    LinesIffContentRow(data);
    if lines != [] {
      LinesNonEmpty(data);
      assert lines[0] in lines;
      JoinNonEmpty(lines, "\n", 0);
    }
  }

  /** The table has a line exactly when one of its rows has a non-blank cell. */
  lemma LinesIffContentRow(data: seq<seq<string>>)
    ensures TableLines(data) != [] <==> exists i :: 0 <= i < |data| && CsvParsing.HasContent(data[i])
  {
    FlatMapMembers(RowLineEntry, data);
    if exists i :: 0 <= i < |data| && CsvParsing.HasContent(data[i]) {
      var i :| 0 <= i < |data| && CsvParsing.HasContent(data[i]);
      assert Join(data[i], " | ") in RowLineEntry(data[i]);
      assert Join(data[i], " | ") in TableLines(data);
    }
    if TableLines(data) != [] {
      var line := TableLines(data)[0];
      assert line in TableLines(data);
      var i :| 0 <= i < |data| && line in RowLineEntry(data[i]);
      assert CsvParsing.HasContent(data[i]);
    }
  }

  /** No line of a table is empty. */
  lemma LinesNonEmpty(data: seq<seq<string>>)
    ensures forall line :: line in TableLines(data) ==> line != ""
  {
    FlatMapMembers(RowLineEntry, data);
    forall line | line in TableLines(data) ensures line != "" {
      var i :| 0 <= i < |data| && line in RowLineEntry(data[i]);
      CsvParsing.HasContentIffNotBlank(data[i]);
      var j :| 0 <= j < |data[i]| && !IsBlank(data[i][j]);
      JoinNonEmpty(data[i], " | ", j);
    }
  }

  /** The number of tables with text. */
  function TablesWithText(ts: seq<Table>): nat
  {
    if ts == [] then 0 else TablesWithText(ts[..|ts| - 1]) + (if TableContent(ts[|ts| - 1]) != "" then 1 else 0)
  }

  /** The tables add one text per table with text, never more than there are tables. */
  lemma {:induction false} TableTextsCount(ts: seq<Table>)
    ensures |TableTexts(ts)| == TablesWithText(ts) <= |ts|
  {
    if ts != [] {
      TableTextsCount(ts[..|ts| - 1]);
    }
  }

  // ------------------------------------------------------------ supported formats

  /** is_supported: the lower-cased path ends with .odt. */
  predicate IsSupported(path: string)
  {
    EndsWith(Lower(path), ".odt")
  }
}

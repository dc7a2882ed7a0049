// The PDF parser. The PDF library is reduced to what it hands back: the document information
// entries and, per page, the text extraction result (None when the page has no text layer) and
// the tables found on it. Opening the document either succeeds or raises with a message.

module PdfParsing {
  import opened Wrappers
  import opened Strings

  /** A table as the library returns it: rows of cells, a cell None when empty. */
  type Table = seq<seq<Option<string>>>

  datatype PdfPage = PdfPage(text: Option<string>, tables: seq<Table>)

  datatype PdfInfo = PdfInfo(
    title: Option<string>, author: Option<string>, subject: Option<string>,
    creator: Option<string>, producer: Option<string>,
    creationDate: Option<string>, modDate: Option<string>)

  datatype PdfDocument = PdfDocument(info: PdfInfo, pages: seq<PdfPage>)

  datatype PdfMetadata = PdfMetadata(
    title: string, author: string, subject: string, creator: string, producer: string,
    creationDate: string, modificationDate: string, fileSizeBytes: Option<nat>)

  datatype TableData = TableData(tableNumber: nat, rows: nat, columns: nat, data: Table)

  datatype PageData = PageData(pageNumber: nat, text: string, textLength: nat, tables: seq<TableData>)

  datatype PdfResult = PdfResult(
    filePath: string, fileName: string, fileType: string,
    pages: seq<PageData>, extractedText: string, metadata: Option<PdfMetadata>,
    totalPages: nat, pagesWithText: nat, totalTextLength: nat, error: Option<string>)

  datatype BytesPageData = BytesPageData(pageNumber: nat, text: string, textLength: nat, hasText: bool)

  datatype PdfBytesResult = PdfBytesResult(
    filePath: string, fileName: string, fileType: string,
    pages: seq<BytesPageData>, extractedText: string, metadata: Option<PdfMetadata>,
    totalPages: nat, pagesWithText: nat, totalTextLength: nat, error: Option<string>)

  /** The metadata dict; a missing entry becomes "". */
  function Metadata(info: PdfInfo, size: Option<nat>): PdfMetadata
  {
    PdfMetadata(info.title.GetOr(""), info.author.GetOr(""), info.subject.GetOr(""),
      info.creator.GetOr(""), info.producer.GetOr(""), info.creationDate.GetOr(""),
      info.modDate.GetOr(""), size)
  }

  // ------------------------------------------------------------ the path entry point

  /** `if page_text:` */
  predicate HasTextLayer(p: PdfPage)
  {
    p.text.Some? && p.text.value != ""
  }

  /** The texts the path entry point collects: those of pages with a non-empty text, unstripped. */
  function TextPages(pages: seq<PdfPage>): (r: seq<string>)
    ensures |r| <= |pages|
    ensures forall t :: t in r ==> t != ""
  {
    if pages == [] then []
    else
      var last := pages[|pages| - 1];
      TextPages(pages[..|pages| - 1]) + (if HasTextLayer(last) then [last.text.value] else [])
  }

  function TableRecord(number: nat, t: Table): TableData
  {
    TableData(number, |t|, if |t| > 0 then |t[0]| else 0, t)
  }

  /** A page's record: the stripped text, but the length of the text before stripping. */
  function PageRecord(number: nat, p: PdfPage): PageData
  {
    var tables := seq(|p.tables|, k requires 0 <= k < |p.tables| => TableRecord(k + 1, p.tables[k]));
    if HasTextLayer(p) then PageData(number, Strip(p.text.value), |p.text.value|, tables)
    else PageData(number, "", 0, tables)
  }

  /** The failure record of both entry points. */
  function PathFailure(path: string, message: string): PdfResult
  {
    PdfResult(path, Basename(path), "pdf", [], "", None, 0, 0, 0, Some("Failed to parse PDF: " + message))
  }

  /** The tables of one page, numbered from 1 in the library's order. */
  method TableRecords(tables: seq<Table>) returns (records: seq<TableData>)
    ensures |records| == |tables|
    ensures forall k :: 0 <= k < |tables| ==> records[k] == TableRecord(k + 1, tables[k])
  {
    records := [];
    for k := 0 to |tables|
      invariant |records| == k
      invariant forall j :: 0 <= j < k ==> records[j] == TableRecord(j + 1, tables[j])
    {
      records := records + [TableRecord(k + 1, tables[k])];
    }
  }

  /** One iteration of the page loop: the page's record, and the text it adds to the document's. */
  method ProcessPage(number: nat, page: PdfPage) returns (data: PageData, collected: Option<string>)
    ensures data == PageRecord(number, page)
    ensures collected == if HasTextLayer(page) then Some(page.text.value) else None
  {
    var tables := TableRecords(page.tables);
    data := PageData(number, "", 0, tables);
    collected := None;
    if page.text.Some? && page.text.value != "" {
      data := data.(text := Strip(page.text.value), textLength := |page.text.value|);
      collected := Some(page.text.value);
    }
  }

  /**
   * parse_file. `fileExists` says whether the path exists; `loaded` is the library's document, or
   * the message of the exception opening it raised.
   */
  method ParsePdf(path: string, fileExists: bool, loaded: Result<PdfDocument, string>) returns (r: PdfResult)
    ensures !fileExists ==> r == PathFailure(path, "PDF file not found: " + path)
    ensures fileExists && loaded.Err? ==> r == PathFailure(path, loaded.error)
    ensures fileExists && loaded.Ok? ==>
      var pages := loaded.value.pages;
      r.filePath == path && r.fileName == Basename(path) && r.fileType == "pdf" && r.error.None?
      && r.metadata == Some(Metadata(loaded.value.info, None))
      && |r.pages| == |pages|
      && (forall i :: 0 <= i < |pages| ==> r.pages[i] == PageRecord(i + 1, pages[i]))
      && r.extractedText == Join(TextPages(pages), "\n\n")
      && r.totalPages == |pages| && r.pagesWithText == |TextPages(pages)|
      && r.totalTextLength == |r.extractedText|
  {
    if !fileExists {
      return PathFailure(path, "PDF file not found: " + path);
    }
    if loaded.Err? {
      return PathFailure(path, loaded.error);
    }
    var doc := loaded.value;
    var records, allText, pagesWithText := CollectPages(doc.pages);
    var text := Join(allText, "\n\n");
    r := PdfResult(path, Basename(path), "pdf", records, text, Some(Metadata(doc.info, None)),
      |doc.pages|, pagesWithText, |text|, None);
  }

  /** The state of parse_file's page loop after the first i pages. */
  predicate PathSoFar(pages: seq<PdfPage>, i: nat, records: seq<PageData>, allText: seq<string>, count: nat)
    requires i <= |pages|
  {
    |records| == i
    && (forall j :: 0 <= j < i ==> records[j] == PageRecord(j + 1, pages[j]))
    && allText == TextPages(pages[..i])
    && count == |allText|
  }

  /** The page loop of parse_file. */
  method CollectPages(pages: seq<PdfPage>) returns (records: seq<PageData>, allText: seq<string>, pagesWithText: nat)
    ensures |records| == |pages|
    ensures forall i :: 0 <= i < |pages| ==> records[i] == PageRecord(i + 1, pages[i])
    ensures allText == TextPages(pages)
    ensures pagesWithText == |TextPages(pages)|
  {
    records := [];
    allText := [];
    pagesWithText := 0;
    for i := 0 to |pages|
      invariant PathSoFar(pages, i, records, allText, pagesWithText)
    {
      var data, collected := ProcessPage(i + 1, pages[i]);
      PathStep(pages, i, records, allText, pagesWithText);
      if collected.Some? {
        allText := allText + [collected.value];
        pagesWithText := pagesWithText + 1;
      }
      records := records + [data];
    }
    assert pages[..|pages|] == pages;
  }

  /** What one more page adds to the path entry point's records and collected texts. */
  lemma PathStep(pages: seq<PdfPage>, i: nat, records: seq<PageData>, allText: seq<string>, count: nat)
    requires i < |pages| && PathSoFar(pages, i, records, allText, count)
    ensures var p := pages[i];
      var allText' := allText + (if HasTextLayer(p) then [p.text.value] else []);
      PathSoFar(pages, i + 1, records + [PageRecord(i + 1, p)], allText', |allText'|)
  {
    PathRecordsStep(pages, i, records);
    PathTextStep(pages, i);
  }

  lemma PathRecordsStep(pages: seq<PdfPage>, i: nat, records: seq<PageData>)
    requires i < |pages| && |records| == i
    requires forall j :: 0 <= j < i ==> records[j] == PageRecord(j + 1, pages[j])
    ensures var records' := records + [PageRecord(i + 1, pages[i])];
      forall j :: 0 <= j < i + 1 ==> records'[j] == PageRecord(j + 1, pages[j])
  {
  }

  lemma PathTextStep(pages: seq<PdfPage>, i: nat)
    requires i < |pages|
    ensures var p := pages[i];
      TextPages(pages[..i + 1]) == TextPages(pages[..i]) + (if HasTextLayer(p) then [p.text.value] else [])
  {
    var prefix := pages[..i + 1];
    assert prefix[..i] == pages[..i];
    assert prefix[|prefix| - 1] == pages[i];
  }

  /** A page's text is collected exactly when the library returned a non-empty text for it. */
  lemma {:induction false} TextPagesMembers(pages: seq<PdfPage>)
    ensures forall t :: t in TextPages(pages) <==> exists i :: 0 <= i < |pages| && pages[i].text == Some(t) && t != ""
  {
    if pages != [] {
      var init := pages[..|pages| - 1];
      TextPagesMembers(init);
      forall t ensures t in TextPages(pages) <==> exists i :: 0 <= i < |pages| && pages[i].text == Some(t) && t != "" {
        if t in TextPages(init) {
          var i :| 0 <= i < |init| && init[i].text == Some(t) && t != "";
          assert pages[i] == init[i];
        }
        if exists i :: 0 <= i < |pages| && pages[i].text == Some(t) && t != "" {
          var i :| 0 <= i < |pages| && pages[i].text == Some(t) && t != "";
          if i < |init| {
            assert init[i] == pages[i];
          }
        }
      }
    }
  }

  /** On the path entry point, every page record's length is that of the text before it was stripped. */
  lemma PageRecordLength(number: nat, p: PdfPage)
    ensures PageRecord(number, p).textLength >= |PageRecord(number, p).text|
    ensures PageRecord(number, p).text != "" ==> HasTextLayer(p)
  {
    if HasTextLayer(p) {
      StripShape(p.text.value);
    }
  }

  /** Joining with "\n\n": the result's length is the parts' lengths plus two per separator. */
  lemma {:induction false} JoinedLength(parts: seq<string>)
    requires parts != []
    ensures |Join(parts, "\n\n")| == TotalLength(parts) + 2 * (|parts| - 1)
  {
    if |parts| > 1 {
      JoinedLength(parts[1..]);
      assert TotalLength(parts) == |parts[0]| + TotalLength(parts[1..]);
    }
  }

  function TotalLength(parts: seq<string>): nat
  {
    if parts == [] then 0 else |parts[0]| + TotalLength(parts[1..])
  }

  // ------------------------------------------------------------ the bytes entry point

  /** `page.extract_text() or ""` */
  function PageText(p: PdfPage): string
  {
    if p.text.Some? then p.text.value else ""
  }

  /** `len(page_text.strip()) > 0` */
  predicate PageHasText(p: PdfPage)
  {
    |Strip(PageText(p))| > 0
  }

  function BytesPageRecord(number: nat, p: PdfPage): BytesPageData
  {
    BytesPageData(number, PageText(p), |PageText(p)|, PageHasText(p))
  }

  function PageTexts(pages: seq<PdfPage>): (r: seq<string>)
    ensures |r| == |pages|
    ensures forall i :: 0 <= i < |pages| ==> r[i] == PageText(pages[i])
  {
    seq(|pages|, i requires 0 <= i < |pages| => PageText(pages[i]))
  }

  /** The number of pages whose text is not whitespace only. */
  function NonBlankPages(pages: seq<PdfPage>): (n: nat)
    ensures n <= |pages|
  {
    if pages == [] then 0
    else NonBlankPages(pages[..|pages| - 1]) + (if PageHasText(pages[|pages| - 1]) then 1 else 0)
  }

  function BytesFailure(filename: string, message: string): PdfBytesResult
  {
    PdfBytesResult(filename, filename, "pdf", [], "", None, 0, 0, 0, Some("Failed to parse PDF: " + message))
  }

  /**
   * parse_file_from_bytes. `size` is the byte count of the content; `loaded` is the library's
   * document, or the message of the exception opening it raised.
   */
  method ParsePdfBytes(size: nat, filename: string, loaded: Result<PdfDocument, string>) returns (r: PdfBytesResult)
    ensures loaded.Err? ==> r == BytesFailure(filename, loaded.error)
    ensures loaded.Ok? ==>
      var pages := loaded.value.pages;
      r.filePath == filename && r.fileName == filename && r.fileType == "pdf" && r.error.None?
      && r.metadata == Some(Metadata(loaded.value.info, Some(size)))
      && |r.pages| == |pages|
      && (forall i :: 0 <= i < |pages| ==> r.pages[i] == BytesPageRecord(i + 1, pages[i]))
      && r.extractedText == Terminated(PageTexts(pages), "\n")
      && r.totalPages == |pages| && r.pagesWithText == NonBlankPages(pages)
      && r.totalTextLength == |r.extractedText|
  {
    if loaded.Err? {
      return BytesFailure(filename, loaded.error);
    }
    var doc := loaded.value;
    var records, text, pagesWithText := CollectPageTexts(doc.pages);
    r := PdfBytesResult(filename, filename, "pdf", records, text, Some(Metadata(doc.info, Some(size))),
      |doc.pages|, pagesWithText, |text|, None);
  }

  /** The state of parse_file_from_bytes' page loop after the first i pages. */
  /** One iteration of the page loop of parse_file_from_bytes. */
  method ReadPage(p: PdfPage, number: nat) returns (data: BytesPageData, pageText: string, hasText: bool)
    ensures data == BytesPageRecord(number, p)
    ensures pageText == PageText(p)
    ensures hasText == PageHasText(p)
  {
    pageText := if p.text.Some? then p.text.value else "";
    hasText := |Strip(pageText)| > 0;
    data := BytesPageData(number, pageText, |pageText|, hasText);
  }

  /** The page loop of parse_file_from_bytes. */
  method CollectPageTexts(pages: seq<PdfPage>) returns (records: seq<BytesPageData>, text: string, pagesWithText: nat)
    ensures |records| == |pages|
    ensures forall i :: 0 <= i < |pages| ==> records[i] == BytesPageRecord(i + 1, pages[i])
    ensures text == Terminated(PageTexts(pages), "\n")
    ensures pagesWithText == NonBlankPages(pages)
  {
    records := [];
    text := "";
    pagesWithText := 0;
    for i := 0 to |pages|
      invariant |records| == i
      invariant forall j :: 0 <= j < i ==> records[j] == BytesPageRecord(j + 1, pages[j])
      invariant text == Terminated(PageTexts(pages[..i]), "\n")
      invariant pagesWithText == NonBlankPages(pages[..i])
    {
      var data, pageText, hasText := ReadPage(pages[i], i + 1);
      BytesRecordsStep(pages, i, records, data);
      BytesTextStep(pages, i, text);
      BytesCountStep(pages, i, hasText);
      records := records + [data];
      text := text + pageText + "\n";
      if hasText {
        pagesWithText := pagesWithText + 1;
      }
    }
    assert pages[..|pages|] == pages;
  }

  lemma BytesRecordsStep(pages: seq<PdfPage>, i: nat, records: seq<BytesPageData>, data: BytesPageData)
    requires i < |pages| && |records| == i
    requires forall j :: 0 <= j < i ==> records[j] == BytesPageRecord(j + 1, pages[j])
    requires data == BytesPageRecord(i + 1, pages[i])
    ensures forall j :: 0 <= j < i + 1 ==> (records + [data])[j] == BytesPageRecord(j + 1, pages[j])
  {
    var next := records + [data];
    forall j | 0 <= j < i + 1 ensures next[j] == BytesPageRecord(j + 1, pages[j]) {
      if j < i {
        assert next[j] == records[j];
      }
    }
  }

  lemma BytesTextStep(pages: seq<PdfPage>, i: nat, text: string)
    requires i < |pages| && text == Terminated(PageTexts(pages[..i]), "\n")
    ensures text + PageText(pages[i]) + "\n" == Terminated(PageTexts(pages[..i + 1]), "\n")
  {
    assert PageTexts(pages[..i + 1]) == PageTexts(pages[..i]) + [PageText(pages[i])];
    TerminatedSnoc(PageTexts(pages[..i]), PageText(pages[i]), "\n");
  }

  lemma BytesCountStep(pages: seq<PdfPage>, i: nat, hasText: bool)
    requires i < |pages| && hasText == PageHasText(pages[i])
    ensures NonBlankPages(pages[..i + 1]) == NonBlankPages(pages[..i]) + if hasText then 1 else 0
  {
    var prefix := pages[..i + 1];
    assert prefix[..i] == pages[..i];
    assert prefix[|prefix| - 1] == pages[i];
  }

  /** A page has text on the bytes entry point exactly when its text is not whitespace only. */
  lemma HasTextIffNotBlank(p: PdfPage)
    ensures PageHasText(p) <==> !IsBlank(PageText(p))
  {
    StripEmptyIffBlank(PageText(p));
  }

  /** The bytes text holds every page's text followed by a newline: its length is theirs plus one per page. */
  lemma {:induction false} TerminatedLength(parts: seq<string>)
    ensures |Terminated(parts, "\n")| == TotalLength(parts) + |parts|
  {
    if parts != [] {
      TerminatedLength(parts[1..]);
    }
  }

  /**
   * A page counts as having text on the bytes entry point only if it does on the path entry
   * point; the two counts differ exactly by the pages whose text is non-empty whitespace.
   */
  lemma {:induction false} CountsAgree(pages: seq<PdfPage>)
    ensures NonBlankPages(pages) + BlankTextPages(pages) == |TextPages(pages)|
  {
    if pages != [] {
      CountsAgree(pages[..|pages| - 1]);
      CountsStep(pages);
      PageCounts(pages[|pages| - 1]);
    }
  }

  lemma CountsStep(pages: seq<PdfPage>)
    requires pages != []
    ensures var init, p := pages[..|pages| - 1], pages[|pages| - 1];
      NonBlankPages(pages) == NonBlankPages(init) + (if PageHasText(p) then 1 else 0)
      && BlankTextPages(pages) == BlankTextPages(init) + (if HasTextLayer(p) && IsBlank(p.text.value) then 1 else 0)
      && |TextPages(pages)| == |TextPages(init)| + (if HasTextLayer(p) then 1 else 0)
  {
  }

  /** A page with a text layer has text or is whitespace only; one without has neither. */
  lemma PageCounts(p: PdfPage)
    ensures (if PageHasText(p) then 1 else 0) + (if HasTextLayer(p) && IsBlank(p.text.value) then 1 else 0)
      == (if HasTextLayer(p) then 1 else 0)
  {
    HasTextIffNotBlank(p);
    if p.text == Some("") {
      assert IsBlank(PageText(p));
    }
  }

  /** The number of pages whose text is non-empty but whitespace only. */
  function BlankTextPages(pages: seq<PdfPage>): nat
  {
    if pages == [] then 0
    else
      var p := pages[|pages| - 1];
      BlankTextPages(pages[..|pages| - 1]) + (if HasTextLayer(p) && IsBlank(p.text.value) then 1 else 0)
  }

  predicate IsSupported(path: string)
  {
    EndsWith(Lower(path), ".pdf")
  }
}

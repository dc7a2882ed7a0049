// The nodes of the single-file processing graph. The graph state is a dict the nodes update in
// place; here it is the class FileState, whose fields are the dict's keys (the start and end
// times and the duration are left out). The services the nodes call are parameters: `parse`
// is what a parser entry point returns for the file (a dict, or the message of the exception
// it raised), reached through the router's parse_file_from_bytes; `extract` stands for the
// property agent and `store` for the document memory's store_document (a document id, or the
// message of its exception).

module FileNodes {
  import opened Wrappers
  import opened Strings
  import opened PyValues
  import opened FileRouting
  import ParsedText
  import Memory

  datatype Status = Pending | Parsing | Extracting | Storing | Completed | Failed

  function StatusValue(s: Status): string
  {
    match s
    case Pending => "pending"
    case Parsing => "parsing"
    case Extracting => "extracting"
    case Storing => "storing"
    case Completed => "completed"
    case Failed => "failed"
  }

  /** What the store node hands store_document. */
  datatype StoreRequest = StoreRequest(
    content: Value, filename: string, documentType: Memory.DocumentType, fileSize: nat,
    source: string, propertyData: Option<Value>, tags: seq<string>)

  /** The keys of the state dict that the nodes change. */
  datatype Fields = Fields(
    status: Status, errorMessage: Option<string>, fileType: string, fileSize: nat, supported: bool,
    parsedContent: Option<seq<(string, Value)>>, extractedText: Option<Value>,
    extractedPropertyData: Option<Value>, documentId: Option<string>, storedSuccessfully: bool)

  /** The initial state process_file builds. */
  const Initial := Fields(Pending, None, "", 0, false, None, None, None, None, false)

  // ------------------------------------------------------------ the supported-formats text

  /** The enum member's name, as its repr shows it. */
  function FileTypeName(t: FileType): string
  {
    match t
    case Powerpoint => "POWERPOINT"
    case Pdf => "PDF"
    case Word => "WORD"
    case Excel => "EXCEL"
    case Text => "TEXT"
    case Csv => "CSV"
    case Rtf => "RTF"
    case Odt => "ODT"
    case Unsupported => "UNSUPPORTED"
  }

  /**
   * What get_supported_formats builds from the router's extension table: each type in order of
   * its first extension, with its extensions in table order.
   */
  const RouterFormats: seq<(FileType, seq<string>)> := [
    (Powerpoint, [".pptx", ".ppt"]), (Pdf, [".pdf"]), (Word, [".docx", ".doc"]), (Rtf, [".rtf"]),
    (Odt, [".odt"]), (Excel, [".xlsx", ".xls"]), (Csv, [".csv", ".tsv"]),
    (Text, [".txt", ".text", ".log", ".md", ".markdown"])]

  function QuoteAll(exts: seq<string>): (r: seq<string>)
    ensures |r| == |exts|
  {
    seq(|exts|, i requires 0 <= i < |exts| => "'" + exts[i] + "'")
  }

  function EntryRepr(e: (FileType, seq<string>)): string
  {
    "<FileType." + FileTypeName(e.0) + ": '" + FileTypeValue(e.0) + "'>: [" + Join(QuoteAll(e.1), ", ") + "]"
  }

  /** str() of the formats dict, as the f-string of the unsupported-type message renders it. */
  function FormatsRepr(formats: seq<(FileType, seq<string>)>): string
  {
    "{" + Join(seq(|formats|, i requires 0 <= i < |formats| => EntryRepr(formats[i])), ", ") + "}"
  }

  function UnsupportedMessage(filename: string): string
  {
    "Unsupported file type: " + filename + ". Supported formats: " + FormatsRepr(RouterFormats)
  }

  // ------------------------------------------------------------ what each node does

  /**
   * validate_file_node, given the router's file type `t` for the name: record whether the type
   * is supported, the type and the content size; PARSING when supported, FAILED with the
   * unsupported-type message otherwise.
   */
  function Validated(f: Fields, filename: string, t: FileType, content: seq<bv8>): Fields
  {
    var ok := t != Unsupported;
    f.(supported := ok, fileType := FileTypeValue(t), fileSize := |content|,
       status := if ok then Parsing else Failed,
       errorMessage := if ok then f.errorMessage else Some(UnsupportedMessage(filename)))
  }

  /**
   * parse_file_node, from PARSING: call the router's parse_file_from_bytes, which dispatches on
   * the type `t` of the name; keep the parsed dict, read its text, then EXTRACTING when the text
   * is truthy and STORING otherwise. An exception raised by the router or the parser, or the
   * TypeError the text helper raises on a non-string part, gives FAILED.
   */
  function Parsed(f: Fields, filename: string, t: FileType, parse: (Parser, Entry) -> Result<seq<(string, Value)>, string>): Fields
  {
    if f.status != Parsing then f
    else match Dispatched(BytesRoute(t, filename), parse)
      case Err(m) => f.(status := Failed, errorMessage := Some("File parsing failed: " + m))
      case Ok(p) =>
        match ParsedText.WorkflowText(p)
        case None => f.(parsedContent := Some(p), status := Failed,
                        errorMessage := Some("File parsing failed: " + JoinTypeError))
        case Some(text) => f.(parsedContent := Some(p), extractedText := Some(text),
                              status := if Truthy(text) then Extracting else Storing)
  }

  function TextTruthy(f: Fields): bool
  {
    f.extractedText.Some? && Truthy(f.extractedText.value)
  }

  /**
   * extract_property_data_node, from EXTRACTING: STORING in every case; the agent's dict is kept,
   * or an error dict when the agent raised; nothing is called when the text is falsy.
   */
  function Extracted(f: Fields, extract: Value -> Result<Value, string>): Fields
  {
    if f.status != Extracting then f
    else if !TextTruthy(f) then f.(status := Storing)
    else match extract(f.extractedText.value)
      case Ok(data) => f.(extractedPropertyData := Some(data), status := Storing)
      case Err(m) =>
        f.(extractedPropertyData := Some(VDict([("error", VStr("Failed to extract property data: " + m))])),
           status := Storing)
  }

  /** DocumentType(file_type.lower()), falling back to TXT when there is no such member. */
  function StoredType(fileType: string): Memory.DocumentType
  {
    Memory.ParseType(Lower(fileType)).GetOr(Memory.TXT)
  }

  /** The arguments the store node passes to store_document. */
  function Request(f: Fields, filename: string): StoreRequest
    requires f.extractedText.Some?
  {
    StoreRequest(f.extractedText.value, filename, StoredType(f.fileType), f.fileSize,
      "file_upload", f.extractedPropertyData, ["uploaded", "processed"])
  }

  /**
   * store_in_memory_node, from STORING: with a falsy text COMPLETED without storing; otherwise
   * store the text and be COMPLETED with the new id, or FAILED when storing raised.
   */
  function Stored(f: Fields, filename: string, store: StoreRequest -> Result<string, string>): Fields
  {
    if f.status != Storing then f
    else if !TextTruthy(f) then f.(status := Completed, storedSuccessfully := false)
    else match store(Request(f, filename))
      case Ok(id) => f.(documentId := Some(id), storedSuccessfully := true, status := Completed)
      case Err(m) => f.(status := Failed, errorMessage := Some("Memory storage failed: " + m),
                        storedSuccessfully := false)
  }

  /** The validate node's checks. */
  method CheckFile(f: Fields, filename: string, content: seq<bv8>) returns (g: Fields)
    ensures g == Validated(f, filename, GetFileType(filename), content)
  {
    var t := GetFileType(filename);
    var ok := t != Unsupported;
    g := f.(supported := ok, fileType := FileTypeValue(t), fileSize := |content|);
    if ok {
      g := g.(status := Parsing);
    } else {
      g := g.(status := Failed, errorMessage := Some(UnsupportedMessage(filename)));
    }
  }

  // ------------------------------------------------------------ the state dict

  class FileState {
    const fileContent: seq<bv8>
    const filename: string
    const filePath: Option<string>
    var status: Status
    var errorMessage: Option<string>
    var fileType: string
    var fileSize: nat
    var supported: bool
    var parsedContent: Option<seq<(string, Value)>>
    var extractedText: Option<Value>
    var extractedPropertyData: Option<Value>
    var documentId: Option<string>
    var storedSuccessfully: bool

    function Current(): Fields
      reads this
    {
      Fields(status, errorMessage, fileType, fileSize, supported, parsedContent, extractedText,
        extractedPropertyData, documentId, storedSuccessfully)
    }

    /** The initial state of process_file. */
    constructor(content: seq<bv8>, filename: string, path: Option<string>)
      ensures fileContent == content && this.filename == filename && filePath == path
      ensures Current() == Initial
    {
      fileContent := content;
      this.filename := filename;
      filePath := path;
      status := Pending;
      errorMessage := None;
      fileType := "";
      fileSize := 0;
      supported := false;
      parsedContent := None;
      extractedText := None;
      extractedPropertyData := None;
      documentId := None;
      storedSuccessfully := false;
    }

    method Validate()
      modifies this
      ensures Current() == Validated(old(Current()), filename, GetFileType(filename), fileContent)
    {
      var next := CheckFile(Current(), filename, fileContent);
      Assign(next);
    }

    /** Write the dict's keys. */
    method Assign(g: Fields)
      modifies this
      ensures Current() == g
    {
      status, errorMessage, fileType, fileSize, supported := g.status, g.errorMessage, g.fileType, g.fileSize, g.supported;
      parsedContent, extractedText, extractedPropertyData := g.parsedContent, g.extractedText, g.extractedPropertyData;
      documentId, storedSuccessfully := g.documentId, g.storedSuccessfully;
    }

    /**
     * parse_file_node; `t` is the type the router's get_file_type gives the name, which
     * parse_file_from_bytes dispatches on (the graph's step passes exactly that type).
     */
    method Parse(t: FileType, parse: (Parser, Entry) -> Result<seq<(string, Value)>, string>)
      modifies this
      ensures Current() == Parsed(old(Current()), filename, t, parse)
    {
      if status != Parsing {
        return;
      }
      var outcome := Dispatched(BytesRoute(t, filename), parse);
      if outcome.Err? {
        status := Failed;
        errorMessage := Some("File parsing failed: " + outcome.error);
        return;
      }
      parsedContent := Some(outcome.value);
      var text := ParsedText.WorkflowText(outcome.value);
      if text.None? {
        status := Failed;
        errorMessage := Some("File parsing failed: " + JoinTypeError);
        return;
      }
      extractedText := text;
      status := if Truthy(text.value) then Extracting else Storing;
    }

    method Extract(extract: Value -> Result<Value, string>)
      modifies this
      ensures Current() == Extracted(old(Current()), extract)
    {
      if status != Extracting {
        return;
      }
      if !(extractedText.Some? && Truthy(extractedText.value)) {
        status := Storing;
        return;
      }
      var outcome := extract(extractedText.value);
      if outcome.Ok? {
        extractedPropertyData := Some(outcome.value);
      } else {
        extractedPropertyData := Some(VDict([("error", VStr("Failed to extract property data: " + outcome.error))]));
      }
      status := Storing;
    }

    method Store(store: StoreRequest -> Result<string, string>)
      modifies this
      ensures Current() == Stored(old(Current()), filename, store)
    {
      if status != Storing {
        return;
      }
      if !(extractedText.Some? && Truthy(extractedText.value)) {
        status := Completed;
        storedSuccessfully := false;
        return;
      }
      var documentType := StoredType(fileType);
      var request := StoreRequest(extractedText.value, filename, documentType, fileSize,
        "file_upload", extractedPropertyData, ["uploaded", "processed"]);
      var outcome := store(request);
      if outcome.Ok? {
        documentId := Some(outcome.value);
        storedSuccessfully := true;
        status := Completed;
      } else {
        status := Failed;
        errorMessage := Some("Memory storage failed: " + outcome.error);
        storedSuccessfully := false;
      }
    }
  }

  // ------------------------------------------------------------ properties of the nodes

  /** Validation: PARSING exactly for a supported name, FAILED with the message otherwise, and the content's size. */
  lemma ValidateOutcome(f: Fields, filename: string, content: seq<bv8>)
    ensures var g := Validated(f, filename, GetFileType(filename), content);
      && (g.status == Parsing <==> IsSupported(filename))
      && (g.status == Failed <==> !IsSupported(filename))
      && g.supported == IsSupported(filename) && g.fileSize == |content|
      && g.errorMessage == (if IsSupported(filename) then f.errorMessage else Some(UnsupportedMessage(filename)))
      && g.parsedContent == f.parsedContent && g.documentId == f.documentId
  {
  }

  /** Each later node leaves the state alone unless the status is the one it starts from. */
  lemma NodesIdleElsewhere(f: Fields, filename: string, t: FileType,
                           parse: (Parser, Entry) -> Result<seq<(string, Value)>, string>,
                           extract: Value -> Result<Value, string>, store: StoreRequest -> Result<string, string>)
    ensures f.status != Parsing ==> Parsed(f, filename, t, parse) == f
    ensures f.status != Extracting ==> Extracted(f, extract) == f
    ensures f.status != Storing ==> Stored(f, filename, store) == f
  {
  }

  /**
   * Parsing from PARSING: FAILED exactly when the parser raised or the text helper hit a
   * non-string part, EXTRACTING exactly when the text is truthy, STORING otherwise.
   */
  lemma ParseOutcome(f: Fields, filename: string, t: FileType, parse: (Parser, Entry) -> Result<seq<(string, Value)>, string>)
    requires f.status == Parsing
    ensures var g := Parsed(f, filename, t, parse);
      var out := Dispatched(BytesRoute(t, filename), parse);
      && (g.status == Failed <==> out.Err? || ParsedText.WorkflowText(out.value).None?)
      && (g.status == Extracting <==> out.Ok? && ParsedText.WorkflowText(out.value).Some? && TextTruthy(g))
      && (g.status == Storing <==> out.Ok? && ParsedText.WorkflowText(out.value).Some? && !TextTruthy(g))
      && (out.Ok? ==> g.parsedContent == Some(out.value))
      && (g.status != Failed ==> g.extractedText == ParsedText.WorkflowText(out.value))
  {
  }

  /** Extraction from EXTRACTING always moves on to STORING and touches only the property data. */
  lemma ExtractNeverFails(f: Fields, extract: Value -> Result<Value, string>)
    requires f.status == Extracting
    ensures var g := Extracted(f, extract);
      g.status == Storing && g == f.(status := Storing, extractedPropertyData := g.extractedPropertyData)
    ensures TextTruthy(f) && extract(f.extractedText.value).Err? ==>
      Extracted(f, extract).extractedPropertyData.value.VDict?
  {
  }

  /**
   * Storing from STORING: COMPLETED without a store call for a falsy text; otherwise COMPLETED
   * with the store's id when it returned, FAILED when it raised. Stored exactly when an id came back.
   */
  lemma StoreOutcome(f: Fields, filename: string, store: StoreRequest -> Result<string, string>)
    requires f.status == Storing
    ensures var g := Stored(f, filename, store);
      && (g.status == Completed || g.status == Failed)
      && (g.storedSuccessfully <==> TextTruthy(f) && store(Request(f, filename)).Ok?)
      && (g.status == Failed <==> TextTruthy(f) && store(Request(f, filename)).Err?)
      && (g.storedSuccessfully ==> g.documentId == Some(store(Request(f, filename)).value))
      && (!g.storedSuccessfully ==> g.documentId == f.documentId)
  {
  }

  /**
   * The document type the store node asks for: the file type's value only names a document type
   * for PDF, CSV, RTF and ODT files; Word, Excel, PowerPoint and text files are stored as TXT.
   */
  lemma StoredTypeOf(t: FileType)
    ensures StoredType(FileTypeValue(t)) ==
      match t
      case Pdf => Memory.PDF
      case Csv => Memory.CSV
      case Rtf => Memory.RTF
      case Odt => Memory.ODT
      case _ => Memory.TXT
  {
    ValueIsLower(t);
  }

  /** The file types' values are already lower case. */
  lemma ValueIsLower(t: FileType)
    ensures Lower(FileTypeValue(t)) == FileTypeValue(t)
  {
    LowerKeeps(FileTypeValue(t));
  }
}

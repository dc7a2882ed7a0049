// The parallel batch pipeline's nodes. The state dict is a class whose fields the nodes update;
// a task is a value held in the `tasks` list, and the completed and failed lists hold the
// positions of tasks in that list (the source appends the very task objects, so both lists
// alias entries of `tasks`). Task ids (uuid4) are a parameter; timestamps are left out.

module ParallelNodes {
  import opened Wrappers
  import opened Strings
  import opened PyValues
  import FileRouting
  import ParsedText
  import Memory

  datatype Status = Pending | Assigned | Processing | Completed | Failed

  datatype AgentType = PdfAgent | DocxAgent | PptxAgent | XlsxAgent | CsvAgent | TxtAgent
                     | RtfAgent | OdtAgent | GeneralAgent

  /** The enum's iteration order, which is also the order of the agent table. */
  const AgentTypes: seq<AgentType> :=
    [PdfAgent, DocxAgent, PptxAgent, XlsxAgent, CsvAgent, TxtAgent, RtfAgent, OdtAgent, GeneralAgent]

  function AgentValue(a: AgentType): string
  {
    match a
    case PdfAgent => "pdf_agent"
    case DocxAgent => "docx_agent"
    case PptxAgent => "pptx_agent"
    case XlsxAgent => "xlsx_agent"
    case CsvAgent => "csv_agent"
    case TxtAgent => "txt_agent"
    case RtfAgent => "rtf_agent"
    case OdtAgent => "odt_agent"
    case GeneralAgent => "general_agent"
  }

  // ------------------------------------------------------------ the agent table

  function AgentName(a: AgentType): string
  {
    match a
    case PdfAgent => "PDF Specialist"
    case DocxAgent => "Word Document Expert"
    case PptxAgent => "Presentation Analyst"
    case XlsxAgent => "Spreadsheet Processor"
    case CsvAgent => "Data Table Handler"
    case TxtAgent => "Text Document Processor"
    case RtfAgent => "Rich Text Specialist"
    case OdtAgent => "OpenDocument Handler"
    case GeneralAgent => "General File Processor"
  }

  function SupportedTypes(a: AgentType): seq<string>
  {
    match a
    case PdfAgent => ["pdf"]
    case DocxAgent => ["docx", "doc"]
    case PptxAgent => ["pptx", "ppt"]
    case XlsxAgent => ["xlsx", "xls"]
    case CsvAgent => ["csv"]
    case TxtAgent => ["txt", "md"]
    case RtfAgent => ["rtf"]
    case OdtAgent => ["odt", "ods", "odp"]
    case GeneralAgent => ["*"]
  }

  function MaxConcurrent(a: AgentType): nat
  {
    match a
    case PdfAgent => 3
    case DocxAgent => 4
    case PptxAgent => 2
    case XlsxAgent => 3
    case CsvAgent => 5
    case TxtAgent => 6
    case RtfAgent => 3
    case OdtAgent => 2
    case GeneralAgent => 4
  }

  /** Whether an agent's entry accepts a lower-cased file type. */
  predicate Accepts(a: AgentType, fileType: string)
  {
    "*" in SupportedTypes(a) || fileType in SupportedTypes(a)
  }

  // ------------------------------------------------------------ choosing an agent

  /** The first agent of `types` that accepts the file type. */
  function FirstAccepting(types: seq<AgentType>, fileType: string): Option<AgentType>
  {
    if types == [] then None
    else if Accepts(types[0], fileType) then Some(types[0])
    else FirstAccepting(types[1..], fileType)
  }

  /** The agent _determine_agent_type picks; the general agent when no entry accepts the type. */
  function AgentFor(fileType: string): AgentType
  {
    FirstAccepting(AgentTypes, Lower(fileType)).GetOr(GeneralAgent)
  }

  /** _determine_agent_type: the table scan. */
  method DetermineAgentType(fileType: string) returns (a: AgentType)
    ensures a == AgentFor(fileType)
  {
    var lower := Lower(fileType);
    for k := 0 to |AgentTypes|
      invariant FirstAccepting(AgentTypes[k..], lower) == FirstAccepting(AgentTypes, lower)
    {
      var candidate := AgentTypes[k];
      if "*" in SupportedTypes(candidate) || lower in SupportedTypes(candidate) {
        return candidate;
      }
      assert AgentTypes[k..][1..] == AgentTypes[k + 1..];
    }
    return GeneralAgent;
  }

  /** The first accepting agent accepts, and every agent before it does not. */
  lemma {:induction false} FirstAcceptingIsFirst(types: seq<AgentType>, fileType: string)
    ensures FirstAccepting(types, fileType).Some? ==>
      var a := FirstAccepting(types, fileType).value;
      exists k :: 0 <= k < |types| && types[k] == a && Accepts(a, fileType)
        && forall j :: 0 <= j < k ==> !Accepts(types[j], fileType)
    ensures FirstAccepting(types, fileType).None? ==> forall j :: 0 <= j < |types| ==> !Accepts(types[j], fileType)
  {
    if types != [] && !Accepts(types[0], fileType) {
      FirstAcceptingIsFirst(types[1..], fileType);
      if FirstAccepting(types, fileType).Some? {
        var a := FirstAccepting(types, fileType).value;
        var k :| 0 <= k < |types[1..]| && types[1..][k] == a && Accepts(a, fileType)
          && forall j :: 0 <= j < k ==> !Accepts(types[1..][j], fileType);
        assert types[k + 1] == a;
        forall j | 0 <= j < k + 1 ensures !Accepts(types[j], fileType) {
          if j > 0 {
            assert types[j] == types[1..][j - 1];
          }
        }
      }
    }
  }

  /** The eight specialists come first and none of them takes every type; the general agent is last. */
  lemma AgentTableShape()
    ensures |AgentTypes| == 9 && AgentTypes[8] == GeneralAgent && "*" in SupportedTypes(GeneralAgent)
    ensures forall j :: 0 <= j < 8 ==> AgentTypes[j] != GeneralAgent && "*" !in SupportedTypes(AgentTypes[j])
  {
  }

  /**
   * A specialist is chosen exactly when it lists the lower-cased type; the general agent exactly
   * when no specialist does.
   */
  lemma AgentForIsFirstMatch(fileType: string)
    ensures AgentFor(fileType) != GeneralAgent ==> Lower(fileType) in SupportedTypes(AgentFor(fileType))
    ensures AgentFor(fileType) == GeneralAgent <==>
      forall k :: 0 <= k < 8 ==> Lower(fileType) !in SupportedTypes(AgentTypes[k])
  {
    var ft := Lower(fileType);
    AgentTableShape();
    FirstAcceptingIsFirst(AgentTypes, ft);
    assert Accepts(AgentTypes[8], ft);
    var a := FirstAccepting(AgentTypes, ft).value;
    assert AgentFor(fileType) == a;
    var k :| 0 <= k < |AgentTypes| && AgentTypes[k] == a && Accepts(a, ft)
      && forall j :: 0 <= j < k ==> !Accepts(AgentTypes[j], ft);
    if k < 8 {
      assert a != GeneralAgent && ft in SupportedTypes(a);
    } else {
      assert a == GeneralAgent;
      assert forall j :: 0 <= j < 8 ==> ft !in SupportedTypes(AgentTypes[j]);
    }
  }

  /** The agent each of the router's types reaches. */
  function RoutedAgent(t: FileRouting.FileType): AgentType
  {
    match t
    case Pdf => PdfAgent
    case Csv => CsvAgent
    case Rtf => RtfAgent
    case Odt => OdtAgent
    case _ => GeneralAgent
  }

  /**
   * The router's types: pdf, csv, rtf and odt reach their specialists; word, powerpoint, excel,
   * text and unsupported are not listed by any specialist and go to the general agent.
   */
  lemma AgentForFileType(t: FileRouting.FileType)
    ensures AgentFor(FileRouting.FileTypeValue(t)) == RoutedAgent(t)
  {
    match t
    case Pdf => OnlyListedBy("pdf", PdfAgent);
    case Csv => OnlyListedBy("csv", CsvAgent);
    case Rtf => OnlyListedBy("rtf", RtfAgent);
    case Odt => OnlyListedBy("odt", OdtAgent);
    case Word =>
      NotListed("word");
      ToGeneral("word");
    case Powerpoint =>
      NotListed("powerpoint");
      ToGeneral("powerpoint");
    case Excel =>
      NotListed("excel");
      ToGeneral("excel");
    case Text =>
      NotListed("text");
      ToGeneral("text");
    case Unsupported =>
      NotListed("unsupported");
      ToGeneral("unsupported");
  }

  /** A lower-case name that no specialist lists goes to the general agent. */
  lemma ToGeneral(v: string)
    requires forall i :: 0 <= i < |v| ==> !('A' <= v[i] <= 'Z')
    requires forall k :: 0 <= k < 8 ==> v !in SupportedTypes(AgentTypes[k])
    ensures AgentFor(v) == GeneralAgent
  {
    LowerKeeps(v);
    AgentForIsFirstMatch(v);
  }

  /** The router's names word, powerpoint, excel, text and unsupported are listed by no agent. */
  lemma NotListed(v: string)
    requires v in ["word", "powerpoint", "excel", "text", "unsupported"]
    ensures forall k :: 0 <= k < 8 ==> v !in SupportedTypes(AgentTypes[k])
  {
  }

  /** Every specialist sits among the first eight table entries. */
  lemma SpecialistIndex(a: AgentType)
    requires a != GeneralAgent
    ensures exists k :: 0 <= k < 8 && AgentTypes[k] == a
  {
    match a
    case PdfAgent => assert AgentTypes[0] == a;
    case DocxAgent => assert AgentTypes[1] == a;
    case PptxAgent => assert AgentTypes[2] == a;
    case XlsxAgent => assert AgentTypes[3] == a;
    case CsvAgent => assert AgentTypes[4] == a;
    case TxtAgent => assert AgentTypes[5] == a;
    case RtfAgent => assert AgentTypes[6] == a;
    case OdtAgent => assert AgentTypes[7] == a;
  }

  /** A lower-case type that exactly one specialist lists goes to that specialist. */
  lemma OnlyListedBy(v: string, a: AgentType)
    requires v in ["pdf", "csv", "rtf", "odt"]
    requires a != GeneralAgent && v in SupportedTypes(a)
    ensures AgentFor(v) == a
  {
    ListedLowerCase(v);
    OnlyListerChosen(v, a);
  }

  lemma ListedLowerCase(v: string)
    requires v in ["pdf", "csv", "rtf", "odt"]
    ensures Lower(v) == v
  {
    LowerKeeps(v);
  }

  lemma OnlyListerChosen(v: string, a: AgentType)
    requires Lower(v) == v && v in ["pdf", "csv", "rtf", "odt"]
    requires a != GeneralAgent && v in SupportedTypes(a)
    ensures AgentFor(v) == a
  {
    AgentForIsFirstMatch(v);
    SpecialistIndex(a);
    var b := AgentFor(v);
    assert b != GeneralAgent;
    if b != a {
      SingleLister(v, a, b);
    }
  }

  lemma SingleLister(v: string, a: AgentType, b: AgentType)
    requires v in ["pdf", "csv", "rtf", "odt"] && v in SupportedTypes(a) && a != b
    ensures v !in SupportedTypes(b)
  {
  }

  // ------------------------------------------------------------ agent pools

  /** The worker ids of a pool: "<value>_<i>" for i below the agent's max_concurrent. */
  function Pool(a: AgentType): (r: seq<string>)
    ensures |r| == MaxConcurrent(a)
  {
    seq(MaxConcurrent(a), i requires 0 <= i < MaxConcurrent(a) => AgentValue(a) + "_" + NatToString(i))
  }

  /** The pools the initialize node builds: one per agent type. */
  function Pools(): map<AgentType, seq<string>>
  {
    map a | a in AgentTypes :: Pool(a)
  }

  /** No pool is empty and no pool repeats a worker id. */
  lemma PoolShape(a: AgentType)
    ensures Pool(a) != []
    ensures forall i, j :: 0 <= i < j < |Pool(a)| ==> Pool(a)[i] != Pool(a)[j]
  {
    var v := AgentValue(a);
    forall i, j | 0 <= i < j < |Pool(a)| ensures Pool(a)[i] != Pool(a)[j] {
      assert Pool(a)[i][|v| + 1] == DigitChar(i);
      assert Pool(a)[j][|v| + 1] == DigitChar(j);
    }
  }

  /** Agent values already differ in their first two characters. */
  lemma ValuesDiffer(a: AgentType, b: AgentType)
    requires a != b
    ensures |AgentValue(a)| >= 2 && |AgentValue(b)| >= 2
    ensures AgentValue(a)[0] != AgentValue(b)[0] || AgentValue(a)[1] != AgentValue(b)[1]
  {
  }

  /** A worker id starts with an agent's value exactly when it belongs to that agent's pool. */
  lemma PoolPrefix(a: AgentType, b: AgentType, i: nat)
    requires i < |Pool(b)|
    ensures StartsWith(Pool(b)[i], AgentValue(a)) <==> a == b
  {
    var id := Pool(b)[i];
    var va := AgentValue(a);
    var vb := AgentValue(b);
    assert id[..|vb|] == vb;
    if a != b {
      ValuesDiffer(a, b);
      if va[0] != vb[0] {
        assert id[0] == vb[0];
      } else {
        assert id[1] == vb[1];
      }
      assert !StartsWith(id, va);
    }
  }

  // ------------------------------------------------------------ one file

  datatype FileInput = FileInput(filename: string, content: seq<bv8>)

  /** The dict _process_single_file returns, with the keys the rest of the pipeline reads. */
  datatype TaskResult = TaskResult(
    success: bool, documentId: Option<string>, error: Option<string>,
    agentType: string, agentName: string, propertyData: Option<Value>)

  datatype Task = Task(
    taskId: string, filename: string, content: seq<bv8>, fileType: FileRouting.FileType,
    fileSize: nat, agentType: AgentType, status: Status, assignedAgent: Option<string>,
    errorMessage: Option<string>, result: Option<TaskResult>)

  /** The parser a specialist agent calls parse_file_from_bytes on; the others use the router. */
  function SpecialistParser(a: AgentType): Option<FileRouting.Parser>
  {
    match a
    case PdfAgent => Some(FileRouting.PdfParser)
    case XlsxAgent => Some(FileRouting.ExcelParser)
    case CsvAgent => Some(FileRouting.CsvParser)
    case DocxAgent => Some(FileRouting.DocParser)
    case PptxAgent => Some(FileRouting.PowerPointParser)
    case TxtAgent => Some(FileRouting.TextParser)
    case _ => None
  }

  /**
   * Where an agent's parse request goes: a specialist calls parse_file_from_bytes on its parser,
   * which raises AttributeError when the parser does not define it; the other agents go through
   * the router's parse_file_from_bytes.
   */
  function ParseDispatch(a: AgentType, filename: string): FileRouting.Dispatch
  {
    match SpecialistParser(a)
    case Some(p) =>
      if FileRouting.Defines(p, FileRouting.ParseFileFromBytes) then FileRouting.Call(p, FileRouting.ParseFileFromBytes)
      else FileRouting.Raise(FileRouting.AttributeError(FileRouting.MissingEntry(p, FileRouting.ParseFileFromBytes)))
    case None => FileRouting.ParseBytesRoute(filename)
  }

  /** The agent_enhancements a specialist adds to its parser's result. */
  function Enhancements(a: AgentType): seq<(string, Value)>
  {
    match a
    case PdfAgent => [("ocr_confidence", VStr("high")), ("metadata_extraction", VStr("enhanced")),
                      ("text_structure_analysis", VBool(true))]
    case XlsxAgent => [("data_validation", VStr("enabled")), ("formula_analysis", VBool(true)),
                       ("chart_detection", VBool(true)), ("pivot_table_analysis", VBool(true))]
    case CsvAgent => [("data_quality_check", VStr("enabled")), ("schema_detection", VBool(true)),
                      ("encoding_detection", VBool(true)), ("delimiter_optimization", VBool(true))]
    case DocxAgent => [("formatting_preservation", VStr("enhanced")), ("table_structure_analysis", VBool(true)),
                       ("hyperlink_extraction", VBool(true)), ("image_metadata", VBool(true))]
    case PptxAgent => [("slide_structure_analysis", VBool(true)), ("animation_detection", VBool(true)),
                       ("template_identification", VBool(true)), ("speaker_notes_extraction", VBool(true))]
    case TxtAgent => [("language_detection", VBool(true)), ("encoding_optimization", VBool(true)),
                      ("text_structure_analysis", VBool(true)), ("keyword_extraction", VBool(true))]
    case _ => []
  }

  /** The DocumentType a task's document is stored under; anything unmapped is TXT. */
  function DocumentTypeFor(t: FileRouting.FileType): Memory.DocumentType
  {
    match t
    case Pdf => Memory.PDF
    case Word => Memory.DOCX
    case Powerpoint => Memory.PPTX
    case Excel => Memory.XLSX
    case Csv => Memory.CSV
    case Text => Memory.TXT
    case Rtf => Memory.RTF
    case Odt => Memory.ODT
    case Unsupported => Memory.TXT
  }


  function FailureResult(a: AgentType, message: string): TaskResult
  {
    TaskResult(false, None, Some(message), AgentValue(a), AgentName(a), None)
  }

  /**
   * The parsed content an agent hands on: what the called parser entry point returns, with a
   * specialist's agent_enhancements added, or the message of what was raised. `parse` is what
   * the entry point returns or raises for this file.
   */
  function ParsedContent(agent: AgentType, filename: string,
                         parse: (FileRouting.Parser, FileRouting.Entry) -> Result<seq<(string, Value)>, string>)
    : (r: Result<seq<(string, Value)>, string>)
    ensures r.Ok? ==> ParseDispatch(agent, filename).Call?
    ensures r.Ok? && SpecialistParser(agent).Some? ==> Get(r.value, "agent_enhancements") == Some(VDict(Enhancements(agent)))
  {
    match ParseDispatch(agent, filename)
    case Raise(e) => Err(e.message)
    case Call(p, entry) =>
      match parse(p, entry)
      case Err(m) => Err(m)
      case Ok(parsed) =>
        if SpecialistParser(agent).Some? then Ok(Put(parsed, "agent_enhancements", VDict(Enhancements(agent))))
        else Ok(parsed)
  }

  /** Extracting the property data from the text and storing the document. */
  function StoreText(task: Task, agent: AgentType, text: Value,
                     extract: Value -> Result<Value, string>,
                     store: (Value, Memory.DocumentType) -> Result<string, string>): (r: TaskResult)
    ensures r.success <==> extract(text).Ok? && store(text, DocumentTypeFor(task.fileType)).Ok?
    ensures r.success ==> (r.documentId == Some(store(text, DocumentTypeFor(task.fileType)).value)
      && r.propertyData == Some(extract(text).value))
  {
    match extract(text)
    case Err(m) => FailureResult(agent, "Processing failed: " + m)
    case Ok(data) =>
      match store(text, DocumentTypeFor(task.fileType))
      case Err(m) => FailureResult(agent, "Processing failed: " + m)
      case Ok(id) => TaskResult(true, Some(id), None, AgentValue(agent), AgentName(agent), Some(data))
  }

  /**
   * _process_single_file. `extract` is the property extractor and `store` is
   * DocumentMemory.store_document for the text under a document type; every exception is
   * caught and becomes a failure dict.
   */
  function ProcessSingleFile(task: Task, agent: AgentType,
                             parse: (FileRouting.Parser, FileRouting.Entry) -> Result<seq<(string, Value)>, string>,
                             extract: Value -> Result<Value, string>,
                             store: (Value, Memory.DocumentType) -> Result<string, string>): (r: TaskResult)
    ensures r.agentType == AgentValue(agent) && r.agentName == AgentName(agent)
    ensures r.success <==> r.error.None?
    ensures r.success <==> r.documentId.Some?
    ensures r.success ==> ParseDispatch(agent, task.filename).Call?
  {
    match ParsedContent(agent, task.filename, parse)
    case Err(m) => FailureResult(agent, "Processing failed: " + m)
    case Ok(content) =>
      match ParsedText.BatchText(content)
      case None => FailureResult(agent, "Processing failed: " + JoinTypeError)
      case Some(text) =>
        if !Truthy(text) then FailureResult(agent, "No text content extracted from file")
        else StoreText(task, agent, text, extract, store)
  }

  /**
   * Only the PDF specialist and the router's PDF and PowerPoint routes reach a parser; every
   * other agent's request raises before parsing.
   */
  lemma ParseDispatchCalls(a: AgentType, filename: string)
    ensures ParseDispatch(a, filename).Call? <==>
      a == PdfAgent || (SpecialistParser(a).None? && FileRouting.GetFileType(filename) in {FileRouting.Pdf, FileRouting.Powerpoint})
  {
    if SpecialistParser(a).None? {
      assert ParseDispatch(a, filename) == FileRouting.BytesRoute(FileRouting.GetFileType(filename), filename);
    }
  }

  /** A parse that yields no text ends with the no-text failure, whatever the extractor and the store would do. */
  lemma NoTextSkipsExtractorAndStore(task: Task, agent: AgentType,
                                     parse: (FileRouting.Parser, FileRouting.Entry) -> Result<seq<(string, Value)>, string>,
                                     extract: Value -> Result<Value, string>, extract': Value -> Result<Value, string>,
                                     store: (Value, Memory.DocumentType) -> Result<string, string>,
                                     store': (Value, Memory.DocumentType) -> Result<string, string>)
    requires ParsedContent(agent, task.filename, parse).Ok?
    requires var t := ParsedText.BatchText(ParsedContent(agent, task.filename, parse).value); t.Some? && !Truthy(t.value)
    ensures ProcessSingleFile(task, agent, parse, extract, store) == FailureResult(agent, "No text content extracted from file")
    ensures ProcessSingleFile(task, agent, parse, extract, store) == ProcessSingleFile(task, agent, parse, extract', store')
  {
  }

  /** A successful file was extracted and stored under the type its file type maps to. */
  lemma StoredUnderMappedType(task: Task, agent: AgentType,
                              parse: (FileRouting.Parser, FileRouting.Entry) -> Result<seq<(string, Value)>, string>,
                              extract: Value -> Result<Value, string>,
                              store: (Value, Memory.DocumentType) -> Result<string, string>)
    requires ProcessSingleFile(task, agent, parse, extract, store).success
    ensures ParsedContent(agent, task.filename, parse).Ok?
    ensures var text := ParsedText.BatchText(ParsedContent(agent, task.filename, parse).value);
      text.Some? && Truthy(text.value) && extract(text.value).Ok?
      && store(text.value, DocumentTypeFor(task.fileType)) == Ok(ProcessSingleFile(task, agent, parse, extract, store).documentId.value)
  {
  }

  /**
   * The stored document type agrees with the memory's own parsing of the type name for pdf, csv,
   * rtf and odt; word, powerpoint, excel and text are names the memory does not parse, and are
   * mapped to DOCX, PPTX, XLSX and TXT by the table.
   */
  lemma DocumentTypeAgreement(t: FileRouting.FileType)
    ensures t in {FileRouting.Pdf, FileRouting.Csv, FileRouting.Rtf, FileRouting.Odt} ==>
      Memory.ParseType(FileRouting.FileTypeValue(t)) == Some(DocumentTypeFor(t))
    ensures t in {FileRouting.Word, FileRouting.Powerpoint, FileRouting.Excel, FileRouting.Text, FileRouting.Unsupported} ==>
      Memory.ParseType(FileRouting.FileTypeValue(t)) == None
  {
  }

  // ------------------------------------------------------------ grouping tasks by agent type

  /** The tasks a grouping loop takes: all of them, or only those still PROCESSING. */
  predicate Selected(t: Task, onlyProcessing: bool)
  {
    !onlyProcessing || t.status == Processing
  }

  /** The positions of the selected tasks of agent type `a`, in list order: the group of `a`. */
  function Members(ts: seq<Task>, a: AgentType, only: bool): (r: seq<nat>)
    ensures forall k :: 0 <= k < |r| ==> r[k] < |ts|
  {
    if ts == [] then []
    else
      var n := |ts| - 1;
      Members(ts[..n], a, only) + (if ts[n].agentType == a && Selected(ts[n], only) then [n] else [])
  }

  /** The agent types of the selected tasks in order of first appearance: the groups' key order. */
  function TypeOrder(ts: seq<Task>, only: bool): seq<AgentType>
  {
    if ts == [] then []
    else
      var n := |ts| - 1;
      var before := TypeOrder(ts[..n], only);
      before + (if Selected(ts[n], only) && ts[n].agentType !in before then [ts[n].agentType] else [])
  }

  lemma GroupStep(ts: seq<Task>, k: nat, only: bool)
    requires k < |ts|
    ensures TypeOrder(ts[..k + 1], only) == TypeOrder(ts[..k], only)
      + (if Selected(ts[k], only) && ts[k].agentType !in TypeOrder(ts[..k], only) then [ts[k].agentType] else [])
    ensures forall a :: (Members(ts[..k + 1], a, only)
      == Members(ts[..k], a, only) + (if ts[k].agentType == a && Selected(ts[k], only) then [k] else []))
  {
    assert ts[..k + 1][..k] == ts[..k];
  }

  /** A type is a group key exactly when its group is not empty. */
  lemma {:induction false} TypeOrderMembers(ts: seq<Task>, a: AgentType, only: bool)
    ensures a in TypeOrder(ts, only) <==> Members(ts, a, only) != []
  {
    if ts != [] {
      TypeOrderMembers(ts[..|ts| - 1], a, only);
    }
  }

  /** No type is a key twice. */
  lemma {:induction false} TypeOrderDistinct(ts: seq<Task>, only: bool)
    ensures forall i, j :: 0 <= i < j < |TypeOrder(ts, only)| ==> TypeOrder(ts, only)[i] != TypeOrder(ts, only)[j]
  {
    if ts != [] {
      TypeOrderDistinct(ts[..|ts| - 1], only);
    }
  }

  /** The k-th member of a group is a selected task of that type with exactly k members before it. */
  lemma {:induction false} MembersShape(ts: seq<Task>, a: AgentType, only: bool)
    ensures forall k :: 0 <= k < |Members(ts, a, only)| ==>
      ts[Members(ts, a, only)[k]].agentType == a && Selected(ts[Members(ts, a, only)[k]], only)
      && |Members(ts[..Members(ts, a, only)[k]], a, only)| == k
  {
    if ts != [] {
      var n := |ts| - 1;
      var init := ts[..n];
      MembersShape(init, a, only);
      var m := Members(ts, a, only);
      var mi := Members(init, a, only);
      forall k | 0 <= k < |m|
        ensures ts[m[k]].agentType == a && Selected(ts[m[k]], only) && |Members(ts[..m[k]], a, only)| == k
      {
        if k < |mi| {
          assert m[k] == mi[k];
          assert init[..mi[k]] == ts[..mi[k]];
          assert init[mi[k]] == ts[mi[k]];
        } else {
          assert m[k] == n;
        }
      }
    }
  }

  /** The group of a prefix is a prefix of the group. */
  lemma {:induction false} MembersPrefix(ts: seq<Task>, a: AgentType, only: bool, j: nat)
    requires j <= |ts|
    ensures Members(ts[..j], a, only) <= Members(ts, a, only)
    decreases |ts| - j
  {
    if j < |ts| {
      MembersPrefix(ts, a, only, j + 1);
      GroupStep(ts, j, only);
    } else {
      assert ts[..j] == ts;
    }
  }

  /** Every selected task of type `a` sits in the group of `a` at the position of its rank. */
  lemma MembersComplete(ts: seq<Task>, a: AgentType, only: bool, t: nat)
    requires t < |ts| && ts[t].agentType == a && Selected(ts[t], only)
    ensures |Members(ts[..t], a, only)| < |Members(ts, a, only)|
    ensures Members(ts, a, only)[|Members(ts[..t], a, only)|] == t
  {
    MembersPrefix(ts, a, only, t + 1);
    GroupStep(ts, t, only);
  }

  /** The grouping loop both nodes run: the group dict and its key order. */
  method GroupTasks(ts: seq<Task>, only: bool) returns (order: seq<AgentType>, groups: map<AgentType, seq<nat>>)
    ensures order == TypeOrder(ts, only)
    ensures forall a :: a in groups <==> a in order
    ensures forall a :: a in groups ==> groups[a] == Members(ts, a, only)
  {
    order := [];
    groups := map[];
    for k := 0 to |ts|
      invariant order == TypeOrder(ts[..k], only)
      invariant forall a :: a in groups <==> a in order
      invariant forall a :: a in groups ==> groups[a] == Members(ts[..k], a, only)
    {
      GroupStep(ts, k, only);
      var task := ts[k];
      if Selected(task, only) {
        if task.agentType !in groups {
          TypeOrderMembers(ts[..k], task.agentType, only);
          groups := groups[task.agentType := []];
          order := order + [task.agentType];
        }
        groups := groups[task.agentType := groups[task.agentType] + [k]];
      }
    }
    assert ts[..|ts|] == ts;
  }

  // ------------------------------------------------------------ round robin

  predicate PoolsCover(ts: seq<Task>, pools: map<AgentType, seq<string>>)
  {
    forall t :: 0 <= t < |ts| ==> ts[t].agentType in pools && pools[ts[t].agentType] != []
  }

  /** How many tasks of the same agent type come before task t. */
  function Rank(ts: seq<Task>, t: nat): nat
    requires t < |ts|
  {
    |Members(ts[..t], ts[t].agentType, false)|
  }

  /** The worker round robin gives task t: its rank modulo the pool size picks the id. */
  function RoundRobin(ts: seq<Task>, pools: map<AgentType, seq<string>>, t: nat): string
    requires t < |ts| && PoolsCover(ts, pools)
  {
    var pool := pools[ts[t].agentType];
    pool[Rank(ts, t) % |pool|]
  }

  function AssignedTask(ts: seq<Task>, pools: map<AgentType, seq<string>>, t: nat): Task
    requires t < |ts| && PoolsCover(ts, pools)
  {
    ts[t].(assignedAgent := Some(RoundRobin(ts, pools, t)), status := Processing)
  }

  function TaskIds(ts: seq<Task>): set<string>
  {
    set t | 0 <= t < |ts| :: ts[t].taskId
  }

  predicate UniqueIds(ts: seq<Task>)
  {
    forall i, j :: 0 <= i < j < |ts| ==> ts[i].taskId != ts[j].taskId
  }

  /** Whether the assignment loop is past task t: its group is done, or it is among the first i of group a. */
  predicate Reached(ts: seq<Task>, before: seq<AgentType>, a: AgentType, i: nat, t: nat)
    requires t < |ts|
  {
    ts[t].agentType in before || (ts[t].agentType == a && Rank(ts, t) < i)
  }

  /** The assignments recorded for the reached tasks, over the map the node started from. */
  ghost predicate Recorded(ts: seq<Task>, pools: map<AgentType, seq<string>>, before: seq<AgentType>, a: AgentType, i: nat,
                           initial: map<string, string>, assignments: map<string, string>)
    requires PoolsCover(ts, pools)
  {
    && assignments.Keys <= initial.Keys + TaskIds(ts)
    && (forall k :: k in initial && k !in TaskIds(ts) ==> k in assignments && assignments[k] == initial[k])
    && (forall t :: 0 <= t < |ts| && Reached(ts, before, a, i, t) ==> ts[t].taskId in assignments)
    && (UniqueIds(ts) ==> forall t :: 0 <= t < |ts| && Reached(ts, before, a, i, t) ==>
          assignments[ts[t].taskId] == RoundRobin(ts, pools, t))
  }

  /** The assignment loop's tasks: the reached ones assigned, the others as they were. */
  ghost predicate AssignedUpTo(ts: seq<Task>, pools: map<AgentType, seq<string>>, before: seq<AgentType>, a: AgentType, i: nat,
                               cur: seq<Task>)
    requires PoolsCover(ts, pools)
  {
    |cur| == |ts| && forall t :: 0 <= t < |ts| ==> cur[t] == if Reached(ts, before, a, i, t) then AssignedTask(ts, pools, t) else ts[t]
  }

  /** After the round robin: every task id is recorded, with its worker when ids are unique. */
  ghost predicate AllRecorded(ts: seq<Task>, pools: map<AgentType, seq<string>>,
                              initial: map<string, string>, assignments: map<string, string>)
    requires PoolsCover(ts, pools)
  {
    && assignments.Keys == initial.Keys + TaskIds(ts)
    && (forall k :: k in initial && k !in TaskIds(ts) ==> assignments[k] == initial[k])
    && (UniqueIds(ts) ==> forall t :: 0 <= t < |ts| ==> assignments[ts[t].taskId] == RoundRobin(ts, pools, t))
  }

  /** Taking member i of group a reaches exactly that one more task. */
  lemma ReachStep(ts: seq<Task>, before: seq<AgentType>, a: AgentType, i: nat)
    requires a !in before && i < |Members(ts, a, false)|
    ensures var t := Members(ts, a, false)[i];
      ts[t].agentType == a && Rank(ts, t) == i && !Reached(ts, before, a, i, t)
      && forall u :: 0 <= u < |ts| ==> (Reached(ts, before, a, i + 1, u) <==> Reached(ts, before, a, i, u) || u == t)
  {
    var t := Members(ts, a, false)[i];
    MembersShape(ts, a, false);
    forall u | 0 <= u < |ts|
      ensures Reached(ts, before, a, i + 1, u) <==> Reached(ts, before, a, i, u) || u == t
    {
      if ts[u].agentType == a && Rank(ts, u) == i {
        MembersComplete(ts, a, false, u);
      }
    }
  }

  lemma AssignTaskStep(ts: seq<Task>, pools: map<AgentType, seq<string>>, before: seq<AgentType>, a: AgentType, i: nat,
                       cur: seq<Task>)
    requires PoolsCover(ts, pools) && a !in before && i < |Members(ts, a, false)|
    requires AssignedUpTo(ts, pools, before, a, i, cur)
    ensures a in pools && pools[a] != []
    ensures var t := Members(ts, a, false)[i];
      AssignedUpTo(ts, pools, before, a, i + 1,
        cur[t := cur[t].(assignedAgent := Some(pools[a][i % |pools[a]|]), status := Processing)])
  {
    ReachStep(ts, before, a, i);
  }

  lemma RecordStep(ts: seq<Task>, pools: map<AgentType, seq<string>>, before: seq<AgentType>, a: AgentType, i: nat,
                   initial: map<string, string>, asg: map<string, string>)
    requires PoolsCover(ts, pools) && a !in before && i < |Members(ts, a, false)|
    requires Recorded(ts, pools, before, a, i, initial, asg)
    ensures a in pools && pools[a] != []
    ensures var t := Members(ts, a, false)[i];
      Recorded(ts, pools, before, a, i + 1, initial, asg[ts[t].taskId := pools[a][i % |pools[a]|]])
  {
    ReachStep(ts, before, a, i);
    var t := Members(ts, a, false)[i];
    var w := pools[a][i % |pools[a]|];
    RecordKeysStep(ts, initial, asg, t, w);
    RecordReachStep(ts, pools, before, a, i, asg, t, w);
  }

  /** Recording one more task id adds a task-id key and keeps the keys of the initial map outside them. */
  lemma RecordKeysStep(ts: seq<Task>, initial: map<string, string>, asg: map<string, string>, t: nat, w: string)
    requires t < |ts|
    requires asg.Keys <= initial.Keys + TaskIds(ts)
    requires forall k :: k in initial && k !in TaskIds(ts) ==> k in asg && asg[k] == initial[k]
    ensures asg[ts[t].taskId := w].Keys <= initial.Keys + TaskIds(ts)
    ensures forall k :: k in initial && k !in TaskIds(ts) ==>
      k in asg[ts[t].taskId := w] && asg[ts[t].taskId := w][k] == initial[k]
  {
    assert ts[t].taskId in TaskIds(ts);
  }

  /** Recording the worker of task t, the one newly reached, keeps every reached task recorded. */
  lemma RecordReachStep(ts: seq<Task>, pools: map<AgentType, seq<string>>, before: seq<AgentType>, a: AgentType, i: nat,
                        asg: map<string, string>, t: nat, w: string)
    requires PoolsCover(ts, pools) && t < |ts| && ts[t].agentType == a && Rank(ts, t) == i
    requires a in pools && pools[a] != [] && w == pools[a][i % |pools[a]|]
    requires forall u :: 0 <= u < |ts| ==> (Reached(ts, before, a, i + 1, u) <==> Reached(ts, before, a, i, u) || u == t)
    requires forall u :: 0 <= u < |ts| && Reached(ts, before, a, i, u) ==> ts[u].taskId in asg
    requires UniqueIds(ts) ==> forall u :: 0 <= u < |ts| && Reached(ts, before, a, i, u) ==>
      asg[ts[u].taskId] == RoundRobin(ts, pools, u)
    ensures forall u :: 0 <= u < |ts| && Reached(ts, before, a, i + 1, u) ==> ts[u].taskId in asg[ts[t].taskId := w]
    ensures UniqueIds(ts) ==> forall u :: 0 <= u < |ts| && Reached(ts, before, a, i + 1, u) ==>
      asg[ts[t].taskId := w][ts[u].taskId] == RoundRobin(ts, pools, u)
  {
    if UniqueIds(ts) {
      forall u | 0 <= u < |ts| && Reached(ts, before, a, i + 1, u)
        ensures asg[ts[t].taskId := w][ts[u].taskId] == RoundRobin(ts, pools, u)
      {
        if u != t {
          assert ts[u].taskId != ts[t].taskId by {
            if u < t { assert ts[u].taskId != ts[t].taskId; } else { assert ts[t].taskId != ts[u].taskId; }
          }
        }
      }
    }
  }

  /** Once group a is through, its tasks count as reached through the list of finished groups. */
  lemma GroupDoneReach(ts: seq<Task>, before: seq<AgentType>, a: AgentType, b: AgentType)
    ensures forall u :: 0 <= u < |ts| ==>
      (Reached(ts, before, a, |Members(ts, a, false)|, u) <==> Reached(ts, before + [a], b, 0, u))
  {
    forall u | 0 <= u < |ts|
      ensures Reached(ts, before, a, |Members(ts, a, false)|, u) <==> Reached(ts, before + [a], b, 0, u)
    {
      if ts[u].agentType == a {
        MembersComplete(ts, a, false, u);
      }
    }
  }

  lemma GroupDone(ts: seq<Task>, pools: map<AgentType, seq<string>>, before: seq<AgentType>, a: AgentType, b: AgentType,
                  cur: seq<Task>, initial: map<string, string>, asg: map<string, string>)
    requires PoolsCover(ts, pools)
    requires AssignedUpTo(ts, pools, before, a, |Members(ts, a, false)|, cur)
    requires Recorded(ts, pools, before, a, |Members(ts, a, false)|, initial, asg)
    ensures AssignedUpTo(ts, pools, before + [a], b, 0, cur)
    ensures Recorded(ts, pools, before + [a], b, 0, initial, asg)
  {
    GroupDoneReach(ts, before, a, b);
  }

  /** Before any group, nothing is reached, whichever group is named. */
  lemma GroupStart(ts: seq<Task>, pools: map<AgentType, seq<string>>, before: seq<AgentType>, a: AgentType, b: AgentType,
                   cur: seq<Task>, initial: map<string, string>, asg: map<string, string>)
    requires PoolsCover(ts, pools)
    requires AssignedUpTo(ts, pools, before, b, 0, cur) && Recorded(ts, pools, before, b, 0, initial, asg)
    ensures AssignedUpTo(ts, pools, before, a, 0, cur) && Recorded(ts, pools, before, a, 0, initial, asg)
  {
    forall u | 0 <= u < |ts| ensures Reached(ts, before, a, 0, u) <==> Reached(ts, before, b, 0, u) {
    }
  }

  /** With every group through, every task is reached. */
  lemma AllReached(ts: seq<Task>, b: AgentType)
    ensures forall t :: 0 <= t < |ts| ==> Reached(ts, TypeOrder(ts, false), b, 0, t)
  {
    forall t | 0 <= t < |ts| ensures Reached(ts, TypeOrder(ts, false), b, 0, t) {
      MembersComplete(ts, ts[t].agentType, false, t);
      TypeOrderMembers(ts, ts[t].agentType, false);
    }
  }

  /** With every group through, every task is assigned. */
  lemma AllAssigned(ts: seq<Task>, pools: map<AgentType, seq<string>>, b: AgentType, cur: seq<Task>)
    requires PoolsCover(ts, pools)
    requires AssignedUpTo(ts, pools, TypeOrder(ts, false), b, 0, cur)
    ensures |cur| == |ts| && forall t :: 0 <= t < |ts| ==> cur[t] == AssignedTask(ts, pools, t)
  {
    AllReached(ts, b);
  }

  /** With every group through, every task id is recorded. */
  lemma AllGroupsDone(ts: seq<Task>, pools: map<AgentType, seq<string>>, b: AgentType,
                      initial: map<string, string>, asg: map<string, string>)
    requires PoolsCover(ts, pools)
    requires Recorded(ts, pools, TypeOrder(ts, false), b, 0, initial, asg)
    ensures AllRecorded(ts, pools, initial, asg)
  {
    AllReached(ts, b);
    forall k | k in initial.Keys + TaskIds(ts) ensures k in asg {
      if k in TaskIds(ts) {
        var t :| 0 <= t < |ts| && ts[t].taskId == k;
      }
    }
  }

  /** One pass of the outer round-robin loop: the g-th group, from start to end. */
  method AssignOneGroup(ts: seq<Task>, pools: map<AgentType, seq<string>>, order: seq<AgentType>, g: nat,
                        group: seq<nat>, cur0: seq<Task>, initial: map<string, string>, asg0: map<string, string>)
    returns (cur: seq<Task>, asg: map<string, string>)
    requires PoolsCover(ts, pools) && order == TypeOrder(ts, false) && g < |order|
    requires group == Members(ts, order[g], false)
    requires AssignedUpTo(ts, pools, order[..g], GeneralAgent, 0, cur0)
    requires Recorded(ts, pools, order[..g], GeneralAgent, 0, initial, asg0)
    ensures AssignedUpTo(ts, pools, order[..g + 1], GeneralAgent, 0, cur)
    ensures Recorded(ts, pools, order[..g + 1], GeneralAgent, 0, initial, asg)
  {
    var a := order[g];
    TypeOrderDistinct(ts, false);
    TypeOrderMembers(ts, a, false);
    assert a !in order[..g];
    GroupStart(ts, pools, order[..g], a, GeneralAgent, cur0, initial, asg0);
    cur, asg := AssignGroup(ts, pools, order[..g], a, group, cur0, initial, asg0);
    GroupDone(ts, pools, order[..g], a, GeneralAgent, cur, initial, asg);
    assert order[..g + 1] == order[..g] + [a];
  }

  /** The round-robin loop over one group. */
  method AssignGroup(ts: seq<Task>, pools: map<AgentType, seq<string>>, before: seq<AgentType>, a: AgentType,
                     group: seq<nat>, cur0: seq<Task>, initial: map<string, string>, asg0: map<string, string>)
    returns (cur: seq<Task>, asg: map<string, string>)
    requires PoolsCover(ts, pools) && a !in before && Members(ts, a, false) != []
    requires group == Members(ts, a, false)
    requires AssignedUpTo(ts, pools, before, a, 0, cur0) && Recorded(ts, pools, before, a, 0, initial, asg0)
    ensures AssignedUpTo(ts, pools, before, a, |group|, cur) && Recorded(ts, pools, before, a, |group|, initial, asg)
  {
    MembersShape(ts, a, false);
    assert ts[group[0]].agentType == a;
    var pool := pools[a];
    cur, asg := cur0, asg0;
    for i := 0 to |group|
      invariant AssignedUpTo(ts, pools, before, a, i, cur) && Recorded(ts, pools, before, a, i, initial, asg)
    {
      var task := group[i];
      var agentId := pool[i % |pool|];
      AssignTaskStep(ts, pools, before, a, i, cur);
      RecordStep(ts, pools, before, a, i, initial, asg);
      asg := asg[ts[task].taskId := agentId];
      cur := cur[task := cur[task].(assignedAgent := Some(agentId), status := Processing)];
    }
  }

  // ------------------------------------------------------------ running the tasks

  /**
   * What gather hands back for one task: the exception it raised or the dict it returned. A
   * returned dict is what ProcessSingleFile computes for the task; since that function catches
   * every exception of its parse, extract and store steps itself, Raised stands only for an
   * exception escaping its own handler.
   */
  datatype Outcome = Raised(message: string) | Returned(result: TaskResult)

  /** One gathered result, with the position and the id of the task it belongs to. */
  datatype Ran = Ran(index: nat, taskId: string, outcome: Outcome)

  /** A task once its outcome is recorded. */
  function Finished(t: Task, o: Outcome): Task
  {
    match o
    case Raised(m) => t.(status := Failed, errorMessage := Some(m))
    case Returned(r) => t.(status := Completed, result := Some(r))
  }

  function CompletedEntry(e: Ran): seq<nat>
  {
    if e.outcome.Returned? then [e.index] else []
  }

  function FailedEntry(e: Ran): seq<nat>
  {
    if e.outcome.Raised? then [e.index] else []
  }

  function ErrorEntry(e: Ran): seq<string>
  {
    if e.outcome.Raised? then ["Task " + e.taskId + " failed: " + e.outcome.message] else []
  }

  /** A returned dict whose document_id is truthy. */
  function StoredEntry(e: Ran): seq<nat>
  {
    if e.outcome.Returned? && e.outcome.result.documentId.Some? && e.outcome.result.documentId.value != "" then [e.index]
    else []
  }

  /** The groups of `types`, one after another. */
  function Concatenated(ts: seq<Task>, types: seq<AgentType>): (r: seq<nat>)
    ensures forall k :: 0 <= k < |r| ==> r[k] < |ts|
  {
    if types == [] then [] else Concatenated(ts, types[..|types| - 1]) + Members(ts, types[|types| - 1], true)
  }

  /** The order the processing node runs tasks in: the PROCESSING tasks, group by group. */
  function RunOrder(ts: seq<Task>): (r: seq<nat>)
    ensures forall k :: 0 <= k < |r| ==> r[k] < |ts|
  {
    Concatenated(ts, TypeOrder(ts, true))
  }

  /** The gathered results, in run order. */
  function Gathered(ts: seq<Task>, order: seq<nat>, run: Task -> Outcome): (r: seq<Ran>)
    requires forall k :: 0 <= k < |order| ==> order[k] < |ts|
    ensures |r| == |order|
  {
    seq(|order|, k requires 0 <= k < |order| => Ran(order[k], ts[order[k]].taskId, run(ts[order[k]])))
  }

  /** The status the processing node ends with, from its failed and completed lists. */
  function OverallStatus(failed: seq<nat>, completed: seq<nat>): Status
  {
    if failed != [] && completed != [] then Completed
    else if failed != [] then Failed
    else Completed
  }

  predicate NoDuplicates(s: seq<nat>)
  {
    forall i, j :: 0 <= i < j < |s| ==> s[i] != s[j]
  }

  /** A position is in a group exactly when its task is selected and of that type. */
  lemma MembersIn(ts: seq<Task>, a: AgentType, only: bool)
    ensures forall x :: x in Members(ts, a, only) <==> 0 <= x < |ts| && ts[x].agentType == a && Selected(ts[x], only)
    ensures NoDuplicates(Members(ts, a, only))
  {
    MembersShape(ts, a, only);
    forall x | 0 <= x < |ts| && ts[x].agentType == a && Selected(ts[x], only) ensures x in Members(ts, a, only) {
      MembersComplete(ts, a, only, x);
    }
  }

  /** The concatenated groups hold each PROCESSING task of the listed types, once. */
  lemma {:induction false} ConcatenatedIn(ts: seq<Task>, types: seq<AgentType>)
    requires forall i, j :: 0 <= i < j < |types| ==> types[i] != types[j]
    ensures forall x :: x in Concatenated(ts, types) <==> 0 <= x < |ts| && ts[x].agentType in types && ts[x].status == Processing
    ensures NoDuplicates(Concatenated(ts, types))
  {
    if types != [] {
      var n := |types| - 1;
      var init := Concatenated(ts, types[..n]);
      var last := Members(ts, types[n], true);
      ConcatenatedIn(ts, types[..n]);
      MembersIn(ts, types[n], true);
      assert types == types[..n] + [types[n]];
      forall x | x in init ensures x !in last {
      }
      forall i, j | 0 <= i < j < |init + last| ensures (init + last)[i] != (init + last)[j] {
        if j >= |init| && i < |init| {
          assert (init + last)[i] in init;
          assert (init + last)[j] in last;
        }
      }
    }
  }

  /** The node runs each PROCESSING task exactly once, and nothing else. */
  lemma RunOrderExact(ts: seq<Task>)
    ensures forall t :: 0 <= t < |ts| ==> (t in RunOrder(ts) <==> ts[t].status == Processing)
    ensures NoDuplicates(RunOrder(ts))
  {
    TypeOrderDistinct(ts, true);
    ConcatenatedIn(ts, TypeOrder(ts, true));
    forall t | 0 <= t < |ts| && ts[t].status == Processing ensures ts[t].agentType in TypeOrder(ts, true) {
      MembersComplete(ts, ts[t].agentType, true, t);
      TypeOrderMembers(ts, ts[t].agentType, true);
    }
  }

  /**
   * What the processing node's update loop changes: the task list, the completed and failed
   * lists, the error lines and the three counters.
   */
  datatype Tally = Tally(tasks: seq<Task>, completed: seq<nat>, failed: seq<nat>, errors: seq<string>,
                         successful: nat, failedCount: nat, stored: nat)

  /** Recording one gathered result: its task finishes and lands in one list with its counter. */
  function Record(tl: Tally, e: Ran): (r: Tally)
    requires e.index < |tl.tasks|
    ensures |r.tasks| == |tl.tasks|
  {
    Tally(tl.tasks[e.index := Finished(tl.tasks[e.index], e.outcome)],
          tl.completed + CompletedEntry(e), tl.failed + FailedEntry(e), tl.errors + ErrorEntry(e),
          tl.successful + |CompletedEntry(e)|, tl.failedCount + |FailedEntry(e)|, tl.stored + |StoredEntry(e)|)
  }

  predicate IndicesBelow(rs: seq<Ran>, n: nat)
  {
    forall k :: 0 <= k < |rs| ==> rs[k].index < n
  }

  /** Recording the gathered results in order. */
  function RecordAll(tl: Tally, rs: seq<Ran>): (r: Tally)
    requires IndicesBelow(rs, |tl.tasks|)
    ensures |r.tasks| == |tl.tasks|
  {
    if rs == [] then tl else Record(RecordAll(tl, rs[..|rs| - 1]), rs[|rs| - 1])
  }

  lemma RecordAllStep(tl: Tally, rs: seq<Ran>, i: nat)
    requires IndicesBelow(rs, |tl.tasks|) && i < |rs|
    ensures IndicesBelow(rs[..i], |tl.tasks|) && IndicesBelow(rs[..i + 1], |tl.tasks|)
    ensures RecordAll(tl, rs[..i + 1]) == Record(RecordAll(tl, rs[..i]), rs[i])
  {
    assert rs[..i + 1][..i] == rs[..i];
  }

  /** The update loop of the processing node, over the gathered results. */
  method ApplyOutcomes(tl0: Tally, rs: seq<Ran>) returns (tl: Tally)
    requires IndicesBelow(rs, |tl0.tasks|)
    ensures tl == RecordAll(tl0, rs)
  {
    var cur, completed, failed, errs := tl0.tasks, tl0.completed, tl0.failed, tl0.errors;
    var successful, failedCount, stored := tl0.successful, tl0.failedCount, tl0.stored;
    for i := 0 to |rs|
      invariant IndicesBelow(rs[..i], |tl0.tasks|)
      invariant Tally(cur, completed, failed, errs, successful, failedCount, stored) == RecordAll(tl0, rs[..i])
    {
      RecordAllStep(tl0, rs, i);
      var e := rs[i];
      var t := e.index;
      match e.outcome
      case Raised(m) =>
        cur := cur[t := cur[t].(status := Failed, errorMessage := Some(m))];
        failed := failed + [t];
        failedCount := failedCount + 1;
        errs := errs + ["Task " + e.taskId + " failed: " + m];
      case Returned(r) =>
        cur := cur[t := cur[t].(status := Completed, result := Some(r))];
        completed := completed + [t];
        successful := successful + 1;
        if r.documentId.Some? && r.documentId.value != "" {
          stored := stored + 1;
        }
    }
    assert rs[..|rs|] == rs;
    tl := Tally(cur, completed, failed, errs, successful, failedCount, stored);
  }

  /** The lists and counters grow by exactly the entries of the results, in result order. */
  lemma {:induction false} RecordAllLists(tl: Tally, rs: seq<Ran>)
    requires IndicesBelow(rs, |tl.tasks|)
    ensures var r := RecordAll(tl, rs);
      && r.completed == tl.completed + FlatMap(CompletedEntry, rs)
      && r.failed == tl.failed + FlatMap(FailedEntry, rs)
      && r.errors == tl.errors + FlatMap(ErrorEntry, rs)
      && r.successful == tl.successful + |FlatMap(CompletedEntry, rs)|
      && r.failedCount == tl.failedCount + |FlatMap(FailedEntry, rs)|
      && r.stored == tl.stored + |FlatMap(StoredEntry, rs)|
  {
    if rs != [] {
      var n := |rs| - 1;
      RecordAllStep(tl, rs, n);
      RecordAllLists(tl, rs[..n]);
      FlatMapStep(CompletedEntry, rs, n);
      FlatMapStep(FailedEntry, rs, n);
      FlatMapStep(ErrorEntry, rs, n);
      FlatMapStep(StoredEntry, rs, n);
      assert rs[..n + 1] == rs;
    }
  }

  /** The lists only ever name positions of the task list. */
  lemma {:induction false} RecordAllIndices(tl: Tally, rs: seq<Ran>)
    requires IndicesBelow(rs, |tl.tasks|)
    requires ListsInRange(tl)
    ensures ListsInRange(RecordAll(tl, rs))
  {
    if rs != [] {
      var n := |rs| - 1;
      RecordAllStep(tl, rs, n);
      RecordAllIndices(tl, rs[..n]);
      assert rs[..n + 1] == rs;
    }
  }

  /** The first n gathered results are the results of the first n positions of the order. */
  lemma GatheredPrefix(ts: seq<Task>, order: seq<nat>, run: Task -> Outcome, n: nat)
    requires (forall k :: 0 <= k < |order| ==> order[k] < |ts|) && n <= |order|
    ensures Gathered(ts, order, run)[..n] == Gathered(ts, order[..n], run)
  {
  }

  /**
   * Recording the results gathered for distinct positions finishes exactly the tasks at those
   * positions, each with its own outcome, and leaves every other task as it was.
   */
  lemma {:induction false} RecordAllTasks(ts: seq<Task>, order: seq<nat>, run: Task -> Outcome, tl: Tally)
    requires (forall k :: 0 <= k < |order| ==> order[k] < |ts|) && NoDuplicates(order)
    requires tl.tasks == ts
    ensures IndicesBelow(Gathered(ts, order, run), |ts|)
    ensures forall t :: 0 <= t < |ts| ==>
      RecordAll(tl, Gathered(ts, order, run)).tasks[t] == (if t in order then Finished(ts[t], run(ts[t])) else ts[t])
  {
    var rs := Gathered(ts, order, run);
    if order != [] {
      var n := |order| - 1;
      var init := order[..n];
      assert NoDuplicates(init);
      RecordAllTasks(ts, init, run, tl);
      GatheredPrefix(ts, order, run, n);
      RecordAllStep(tl, rs, n);
      assert rs[..n + 1] == rs;
      assert order == init + [order[n]];
      FinishOne(ts, init, run, RecordAll(tl, rs[..n]).tasks, order[n]);
    }
  }

  /** Finishing task x, not finished before, extends the finished positions by x. */
  lemma FinishOne(ts: seq<Task>, init: seq<nat>, run: Task -> Outcome, prev: seq<Task>, x: nat)
    requires x < |ts| && x !in init && |prev| == |ts|
    requires forall t :: 0 <= t < |ts| ==> prev[t] == (if t in init then Finished(ts[t], run(ts[t])) else ts[t])
    ensures forall t :: 0 <= t < |ts| ==>
      prev[x := Finished(prev[x], run(ts[x]))][t] == (if t in init + [x] then Finished(ts[t], run(ts[t])) else ts[t])
  {
  }

  /** The overall status is FAILED exactly when some task failed and none completed. */
  lemma OverallFailedIff(failed: seq<nat>, completed: seq<nat>)
    ensures OverallStatus(failed, completed) == Failed <==> failed != [] && completed == []
    ensures OverallStatus(failed, completed) != Failed ==> OverallStatus(failed, completed) == Completed
  {
  }

  // ------------------------------------------------------------ the workflow state

  /** The tasks a file list starts as: one PENDING task per file, in order. */
  function NewTask(f: FileInput, id: string): Task
  {
    var fileType := FileRouting.GetFileType(f.filename);
    Task(id, f.filename, f.content, fileType, |f.content|, RoutedAgent(fileType),
         Pending, None, None, None)
  }

  /** The task the initialize node makes for the file at position k. */
  function TaskMaker(newId: nat -> string): (nat, FileInput) -> Task
  {
    (k: nat, f: FileInput) => NewTask(f, newId(k))
  }

  function InitialTasks(files: seq<FileInput>, newId: nat -> string): (r: seq<Task>)
    ensures |r| == |files|
  {
    MapIndexed(TaskMaker(newId), files)
  }


  /** The pool loop of the initialize node. */
  method BuildPools() returns (pools: map<AgentType, seq<string>>)
    ensures pools == Pools()
  {
    pools := map[];
    for k := 0 to |AgentTypes|
      invariant pools == map a | a in AgentTypes[..k] :: Pool(a)
    {
      var a := AgentTypes[k];
      assert AgentTypes[..k + 1] == AgentTypes[..k] + [a];
      pools := pools[a := Pool(a)];
    }
    assert AgentTypes[..|AgentTypes|] == AgentTypes;
  }

  /** The task loop of the initialize node. */
  method BuildTasks(files: seq<FileInput>, newId: nat -> string) returns (ts: seq<Task>)
    ensures ts == InitialTasks(files, newId)
  {
    ts := [];
    for i := 0 to |files|
      invariant ts == InitialTasks(files[..i], newId)
    {
      var fileType := FileRouting.GetFileType(files[i].filename);
      var agent := DetermineAgentType(FileRouting.FileTypeValue(fileType));
      AgentForFileType(fileType);
      MapIndexedStep(TaskMaker(newId), files, i);
      ts := ts + [Task(newId(i), files[i].filename, files[i].content, fileType, |files[i].content|, agent,
                       Pending, None, None, None)];
    }
    assert files[..|files|] == files;
  }


  /** The round-robin loops of the assign node, over all groups. */
  method RoundRobinAll(ts: seq<Task>, pools: map<AgentType, seq<string>>, initial: map<string, string>)
    returns (cur: seq<Task>, asg: map<string, string>)
    requires PoolsCover(ts, pools)
    ensures |cur| == |ts| && forall t :: 0 <= t < |ts| ==> cur[t] == AssignedTask(ts, pools, t)
    ensures AllRecorded(ts, pools, initial, asg)
  {
    var order, groups := GroupTasks(ts, false);
    cur := ts;
    asg := initial;
    for g := 0 to |order|
      invariant AssignedUpTo(ts, pools, order[..g], GeneralAgent, 0, cur)
      invariant Recorded(ts, pools, order[..g], GeneralAgent, 0, initial, asg)
    {
      cur, asg := AssignOneGroup(ts, pools, order, g, groups[order[g]], cur, initial, asg);
    }
    assert order[..|order|] == order;
    AllAssigned(ts, pools, GeneralAgent, cur);
    AllGroupsDone(ts, pools, GeneralAgent, initial, asg);
  }

  /** The loop that lines up the PROCESSING tasks group by group. */
  method PendingOrder(ts: seq<Task>) returns (pending: seq<nat>)
    ensures pending == RunOrder(ts)
  {
    var order, groups := GroupTasks(ts, true);
    pending := [];
    for g := 0 to |order|
      invariant pending == Concatenated(ts, order[..g])
    {
      var group := groups[order[g]];
      assert order[..g + 1][..g] == order[..g];
      for i := 0 to |group|
        invariant pending == Concatenated(ts, order[..g]) + group[..i]
      {
        pending := pending + [group[i]];
        assert group[..i + 1] == group[..i] + [group[i]];
      }
      assert group[..|group|] == group;
    }
    assert order[..|order|] == order;
  }

  class ParallelState {
    const files: seq<FileInput>
    const totalFiles: nat
    var tasks: seq<Task>
    var completedTasks: seq<nat>
    var failedTasks: seq<nat>
    var availableAgents: map<AgentType, seq<string>>
    var agentAssignments: map<string, string>
    var overallStatus: Status
    var successfulUploads: nat
    var failedUploads: nat
    var totalDocumentsStored: nat
    var errors: seq<string>

    /** The completed and failed lists name tasks of the task list. */
    ghost predicate Valid()
      reads this
    {
      ListsInRange(Progress())
    }

    /** The part of the state the processing node updates. */
    function Progress(): Tally
      reads this
    {
      Tally(tasks, completedTasks, failedTasks, errors, successfulUploads, failedUploads, totalDocumentsStored)
    }

    /** The initial state process_files hands the graph. */
    constructor(files: seq<FileInput>)
      ensures this.files == files && totalFiles == |files|
      ensures tasks == [] && completedTasks == [] && failedTasks == []
      ensures availableAgents == map[] && agentAssignments == map[] && overallStatus == Pending
      ensures successfulUploads == 0 && failedUploads == 0 && totalDocumentsStored == 0 && errors == []
    {
      this.files := files;
      totalFiles := |files|;
      tasks := [];
      completedTasks := [];
      failedTasks := [];
      availableAgents := map[];
      agentAssignments := map[];
      overallStatus := Pending;
      successfulUploads := 0;
      failedUploads := 0;
      totalDocumentsStored := 0;
      errors := [];
    }

    /**
     * The initialize node: a pool per agent type, a PENDING task per file (`newId` gives the
     * uuid of the i-th task), counters zeroed, status ASSIGNED.
     */
    method Initialize(newId: nat -> string)
      modifies this
      ensures overallStatus == Assigned && errors == []
      ensures successfulUploads == 0 && failedUploads == 0 && totalDocumentsStored == 0
      ensures availableAgents == Pools() && agentAssignments == map[]
      ensures tasks == InitialTasks(files, newId) && completedTasks == [] && failedTasks == []
      ensures Valid()
    {
      var pools := BuildPools();
      var ts := BuildTasks(files, newId);
      Start(pools, ts);
    }

    /** Installs the pools and the task list with empty results; the status becomes ASSIGNED. */
    method Start(pools: map<AgentType, seq<string>>, ts: seq<Task>)
      modifies this
      ensures overallStatus == Assigned && errors == []
      ensures successfulUploads == 0 && failedUploads == 0 && totalDocumentsStored == 0
      ensures availableAgents == pools && agentAssignments == map[]
      ensures tasks == ts && completedTasks == [] && failedTasks == []
      ensures Valid()
    {
      availableAgents, agentAssignments := pools, map[];
      tasks, completedTasks, failedTasks, errors := ts, [], [], [];
      successfulUploads, failedUploads, totalDocumentsStored := 0, 0, 0;
      overallStatus := Assigned;
    }

    /**
     * The assign node: when the status is ASSIGNED, the i-th task of each agent type's group
     * gets worker i modulo the pool size, is recorded under its id and becomes PROCESSING; the
     * status becomes PROCESSING. In any other status nothing changes.
     */
    method AssignAgents()
      requires PoolsCover(tasks, availableAgents)
      modifies this
      ensures old(overallStatus) != Assigned ==> unchanged(this)
      ensures old(overallStatus) == Assigned ==>
        && overallStatus == Processing
        && availableAgents == old(availableAgents)
        && completedTasks == old(completedTasks) && failedTasks == old(failedTasks)
        && successfulUploads == old(successfulUploads) && failedUploads == old(failedUploads)
        && totalDocumentsStored == old(totalDocumentsStored) && errors == old(errors)
        && |tasks| == |old(tasks)|
        && (forall t :: 0 <= t < |tasks| ==> tasks[t] == AssignedTask(old(tasks), old(availableAgents), t))
        && AllRecorded(old(tasks), old(availableAgents), old(agentAssignments), agentAssignments)
    {
      if overallStatus != Assigned {
        return;
      }
      var cur, asg := RoundRobinAll(tasks, availableAgents, agentAssignments);
      tasks := cur;
      agentAssignments := asg;
      overallStatus := Processing;
    }

    /**
     * The processing node: when the status is PROCESSING, runs every PROCESSING task (`run`
     * gives what gather hands back for it), records each as completed or failed with its
     * counter, error line and stored-document count, then sets the overall status. In any other
     * status nothing changes.
     */
    method ProcessFiles(run: Task -> Outcome)
      requires Valid()
      modifies this
      ensures old(overallStatus) != Processing ==> unchanged(this)
      ensures old(overallStatus) == Processing ==>
        && Progress() == Processed(old(Progress()), run)
        && overallStatus == OverallStatus(failedTasks, completedTasks)
        && availableAgents == old(availableAgents) && agentAssignments == old(agentAssignments)
      ensures Valid()
    {
      if overallStatus == Processing {
        var after, status := RunProcessing(Progress(), run);
        Install(after, status);
      }
    }

    /** Writes a tally and a status back into the state; the pools and assignments stay. */
    method Install(after: Tally, status: Status)
      modifies this
      ensures Progress() == after && overallStatus == status
      ensures availableAgents == old(availableAgents) && agentAssignments == old(agentAssignments)
    {
      tasks, completedTasks, failedTasks, errors := after.tasks, after.completed, after.failed, after.errors;
      successfulUploads, failedUploads, totalDocumentsStored := after.successful, after.failedCount, after.stored;
      overallStatus := status;
    }
  }

  /**
   * What the processing node leaves: the outcomes of the PROCESSING tasks, gathered in run order
   * (`run` gives what gather hands back for a task), recorded one by one.
   */
  function Processed(before: Tally, run: Task -> Outcome): Tally
  {
    RecordAll(before, Gathered(before.tasks, RunOrder(before.tasks), run))
  }

  /** The lists of a tally name positions of its task list. */
  predicate ListsInRange(tl: Tally)
  {
    (forall k :: 0 <= k < |tl.completed| ==> tl.completed[k] < |tl.tasks|)
    && (forall k :: 0 <= k < |tl.failed| ==> tl.failed[k] < |tl.tasks|)
  }

  /**
   * The body of the processing node: line the PROCESSING tasks up group by group, gather their
   * outcomes, record them, then decide the overall status.
   */
  method RunProcessing(before: Tally, run: Task -> Outcome) returns (after: Tally, status: Status)
    requires ListsInRange(before)
    ensures after == Processed(before, run)
    ensures status == OverallStatus(after.failed, after.completed)
    ensures ListsInRange(after)
  {
    var pending := PendingOrder(before.tasks);
    var results := Gathered(before.tasks, pending, run);
    after := ApplyOutcomes(before, results);
    RecordAllIndices(before, results);
    if after.failed != [] && after.completed != [] {
      status := Completed;
    } else if after.failed != [] {
      status := Failed;
    } else {
      status := Completed;
    }
  }

  /**
   * What the processing node does to a task list: every PROCESSING task finishes with its own
   * outcome, every other task is left alone, and each run task is listed once, as completed when
   * its run returned and as failed when it raised.
   */
  lemma ProcessingEffect(tl: Tally, run: Task -> Outcome)
    ensures var ts := tl.tasks;
      forall t :: 0 <= t < |ts| ==>
        Processed(tl, run).tasks[t] == (if ts[t].status == Processing then Finished(ts[t], run(ts[t])) else ts[t])
  {
    var ts := tl.tasks;
    RunOrderExact(ts);
    RecordAllTasks(ts, RunOrder(ts), run, tl);
  }

  /** Every gathered result lands in exactly one of the two lists. */
  lemma {:induction false} EntriesPartition(rs: seq<Ran>)
    ensures |FlatMap(CompletedEntry, rs)| + |FlatMap(FailedEntry, rs)| == |rs|
    ensures |FlatMap(StoredEntry, rs)| <= |FlatMap(CompletedEntry, rs)|
    ensures |FlatMap(ErrorEntry, rs)| == |FlatMap(FailedEntry, rs)|
  {
    if rs != [] {
      var n := |rs| - 1;
      EntriesPartition(rs[..n]);
      FlatMapStep(CompletedEntry, rs, n);
      FlatMapStep(FailedEntry, rs, n);
      FlatMapStep(StoredEntry, rs, n);
      FlatMapStep(ErrorEntry, rs, n);
      assert rs[..n + 1] == rs;
    }
  }

  /**
   * The processing node's lists and counters: the run tasks whose outcome returned are appended
   * to the completed list and those that raised to the failed list, in run order, with one error
   * line per failure; the two counters grow by one per run task between them, and the stored
   * count by at most the number of completions.
   */
  lemma ProcessingCounts(tl: Tally, run: Task -> Outcome)
    ensures var r := Processed(tl, run);
      var rs := Gathered(tl.tasks, RunOrder(tl.tasks), run);
      && r.completed == tl.completed + FlatMap(CompletedEntry, rs)
      && r.failed == tl.failed + FlatMap(FailedEntry, rs)
      && r.errors == tl.errors + FlatMap(ErrorEntry, rs)
      && r.successful == tl.successful + |FlatMap(CompletedEntry, rs)|
      && r.failedCount == tl.failedCount + |FlatMap(FailedEntry, rs)|
      && r.stored == tl.stored + |FlatMap(StoredEntry, rs)|
      && (r.successful - tl.successful) + (r.failedCount - tl.failedCount) == |RunOrder(tl.tasks)|
      && r.stored - tl.stored <= r.successful - tl.successful
  {
    var rs := Gathered(tl.tasks, RunOrder(tl.tasks), run);
    RecordAllLists(tl, rs);
    EntriesPartition(rs);
  }
}

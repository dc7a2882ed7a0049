// The single-file processing graph: the routers that pick the next node from the status, the
// edges that map their labels to nodes, and process_file, which runs the graph on a fresh
// state and reports the final one. The graph runtime itself (LangGraph and its checkpointer)
// is the loop in ProcessFile.

module FileWorkflow {
  import opened Wrappers
  import opened Strings
  import opened PyValues
  import opened FileRouting
  import opened FileNodes
  import ParsedText
  import ParallelNodes

  datatype Node = ValidateFile | ParseFile | ExtractPropertyData | StoreInMemory | FinalizeProcessing | End

  // ------------------------------------------------------------ routers and edges

  function AfterValidation(f: Fields): string
  {
    if f.status == Failed then "fail"
    else if f.supported then "parse"
    else "fail"
  }

  function AfterParsing(f: Fields): string
  {
    if f.status == Failed then "fail"
    else if f.status == Extracting then "extract"
    else if f.status == Storing then "store"
    else "fail"
  }

  function AfterExtraction(f: Fields): string
  {
    if f.status == Failed then "fail"
    else if f.status == Storing then "store"
    else "fail"
  }

  function AfterStorage(f: Fields): string
  {
    if f.status == Failed then "fail"
    else if f.status == Completed then "finalize"
    else "fail"
  }

  /** The conditional edges: each node's label-to-node map. */
  function Edges(n: Node): map<string, Node>
  {
    match n
    case ValidateFile => map["parse" := Node.ParseFile, "fail" := End]
    case ParseFile => map["extract" := ExtractPropertyData, "store" := StoreInMemory, "fail" := End]
    case ExtractPropertyData => map["store" := StoreInMemory, "fail" := End]
    case StoreInMemory => map["finalize" := FinalizeProcessing, "fail" := End]
    case FinalizeProcessing => map[]
    case End => map[]
  }

  /** The label a node's router gives for the state the node left. */
  function Label(n: Node, f: Fields): string
  {
    match n
    case ValidateFile => AfterValidation(f)
    case ParseFile => AfterParsing(f)
    case ExtractPropertyData => AfterExtraction(f)
    case StoreInMemory => AfterStorage(f)
    case _ => ""
  }

  /** Every label a router gives is one its edge map lists. */
  lemma LabelsMapped(n: Node, f: Fields)
    requires n != FinalizeProcessing && n != End
    ensures Label(n, f) in Edges(n)
  {
  }

  /** The node after `n`, for the state `n` left: finalize goes straight to the end. */
  function Next(n: Node, f: Fields): Node
  {
    if n == FinalizeProcessing || n == End then End
    else
      LabelsMapped(n, f);
      Edges(n)[Label(n, f)]
  }

  /** The position of a node along the graph; every edge goes to a lower one. */
  function Rank(n: Node): nat
  {
    match n
    case ValidateFile => 5
    case ParseFile => 4
    case ExtractPropertyData => 3
    case StoreInMemory => 2
    case FinalizeProcessing => 1
    case End => 0
  }

  lemma {:induction false} EdgesDescend(n: Node, f: Fields)
    requires n != End
    ensures Rank(Next(n, f)) < Rank(n)
  {
    if n != FinalizeProcessing {
      LabelsMapped(n, f);
    }
  }

  // ------------------------------------------------------------ running the graph

  /** The services the nodes call. */
  datatype Services = Services(
    parse: (Parser, Entry) -> Result<seq<(string, Value)>, string>,
    extract: Value -> Result<Value, string>,
    store: StoreRequest -> Result<string, string>)

  /** What node `n` does to the state; the finalize node only stamps times. */
  function Apply(n: Node, f: Fields, filename: string, t: FileType, content: seq<bv8>, sv: Services): Fields
  {
    match n
    case ValidateFile => Validated(f, filename, t, content)
    case ParseFile => Parsed(f, filename, t, sv.parse)
    case ExtractPropertyData => Extracted(f, sv.extract)
    case StoreInMemory => Stored(f, filename, sv.store)
    case _ => f
  }

  /** The state the graph ends with when it enters node `n` with state `f`. */
  function Run(n: Node, f: Fields, filename: string, t: FileType, content: seq<bv8>, sv: Services): Fields
    decreases Rank(n)
  {
    if n == End then f
    else
      var g := Apply(n, f, filename, t, content, sv);
      EdgesDescend(n, g);
      Run(Next(n, g), g, filename, t, content, sv)
  }

  /** The final state of process_file's run. */
  function Final(filename: string, content: seq<bv8>, sv: Services): Fields
  {
    Run(ValidateFile, Initial, filename, GetFileType(filename), content, sv)
  }

  /** The dict process_file returns (the timing keys are left out). */
  datatype FileResult = FileResult(
    success: bool, status: string, errorMessage: Option<string>,
    filename: string, fileType: string, fileSize: nat, supported: bool,
    parsedContent: Option<seq<(string, Value)>>, extractedPropertyData: Option<Value>,
    documentId: Option<string>, storedSuccessfully: bool)

  function Report(filename: string, f: Fields): FileResult
  {
    FileResult(f.status == Completed, StatusValue(f.status), f.errorMessage, filename, f.fileType,
      f.fileSize, f.supported, f.parsedContent, f.extractedPropertyData, f.documentId,
      f.storedSuccessfully)
  }

  /** Runs the node `n` on the state dict; `t` is the router's type for the file's name. */
  method Step(st: FileState, n: Node, t: FileType, sv: Services)
    requires t == GetFileType(st.filename)
    modifies st
    ensures st.Current() == Apply(n, old(st.Current()), st.filename, t, st.fileContent, sv)
  {
    match n
    case ValidateFile => st.Validate();
    case ParseFile => st.Parse(t, sv.parse);
    case ExtractPropertyData => st.Extract(sv.extract);
    case StoreInMemory => st.Store(sv.store);
    case _ =>
  }

  /**
   * process_file: a fresh state, then the graph from validate_file until it ends, each node
   * followed by its router; the answer reports the final state.
   */
  method ProcessFile(content: seq<bv8>, filename: string, path: Option<string>, sv: Services)
    returns (r: FileResult)
    ensures r == Report(filename, Final(filename, content, sv))
  {
    var st := new FileState(content, filename, path);
    var t := GetFileType(filename);
    var node := ValidateFile;
    while node != End
      invariant st.filename == filename && st.fileContent == content
      invariant Run(node, st.Current(), filename, t, content, sv) == Final(filename, content, sv)
      decreases Rank(node)
    {
      Step(st, node, t, sv);
      var next := Next(node, st.Current());
      EdgesDescend(node, st.Current());
      node := next;
    }
    r := Report(filename, st.Current());
  }

  // ------------------------------------------------------------ properties of a run

  /** The status order a run moves along. */
  function StatusRank(s: Status): nat
  {
    match s
    case Pending => 0
    case Parsing => 1
    case Extracting => 2
    case Storing => 3
    case Completed => 4
    case Failed => 5
  }

  /** The status a node expects on entry: the one its predecessor's router sent it on. */
  predicate Entering(n: Node, f: Fields)
  {
    match n
    case ValidateFile => f.status == Pending
    case ParseFile => f.status == Parsing
    case ExtractPropertyData => f.status == Extracting
    case StoreInMemory => f.status == Storing
    case FinalizeProcessing => f.status == Completed
    case End => f.status == Completed || f.status == Failed
  }

  /** The nodes from `n` on, run one after another with no routing at all. */
  function Straight(n: Node, f: Fields, filename: string, t: FileType, content: seq<bv8>, sv: Services): Fields
    decreases Rank(n)
  {
    match n
    case ValidateFile => Straight(Node.ParseFile, Validated(f, filename, t, content), filename, t, content, sv)
    case ParseFile => Stored(Extracted(Parsed(f, filename, t, sv.parse), sv.extract), filename, sv.store)
    case ExtractPropertyData => Stored(Extracted(f, sv.extract), filename, sv.store)
    case StoreInMemory => Stored(f, filename, sv.store)
    case _ => f
  }

  /** One node's step: the router sends the new state on to a node that expects it. */
  lemma {:induction false} StepEnters(n: Node, f: Fields, filename: string, t: FileType, content: seq<bv8>, sv: Services)
    requires n != End && Entering(n, f)
    ensures var g := Apply(n, f, filename, t, content, sv);
      Entering(Next(n, g), g) && Straight(Next(n, g), g, filename, t, content, sv) == Straight(n, f, filename, t, content, sv)
  {
    match n {
      case ValidateFile => ValidateEnters(f, filename, t, content, sv);
      case ParseFile => ParseEnters(f, filename, t, content, sv);
      case ExtractPropertyData => ExtractEnters(f, filename, t, content, sv);
      case StoreInMemory => StoreEnters(f, filename, t, content, sv);
      case FinalizeProcessing =>
    }
  }

  lemma ValidateEnters(f: Fields, filename: string, t: FileType, content: seq<bv8>, sv: Services)
    requires f.status == Pending
    ensures var g := Validated(f, filename, t, content);
      Entering(Next(ValidateFile, g), g) &&
      Straight(Next(ValidateFile, g), g, filename, t, content, sv) == Straight(Node.ParseFile, g, filename, t, content, sv)
  {
    var g := Validated(f, filename, t, content);
    NodesIdleElsewhere(g, filename, t, sv.parse, sv.extract, sv.store);
  }

  lemma ParseEnters(f: Fields, filename: string, t: FileType, content: seq<bv8>, sv: Services)
    requires f.status == Parsing
    ensures var g := Parsed(f, filename, t, sv.parse);
      Entering(Next(Node.ParseFile, g), g) &&
      Straight(Next(Node.ParseFile, g), g, filename, t, content, sv) == Straight(Node.ParseFile, f, filename, t, content, sv)
  {
    var g := Parsed(f, filename, t, sv.parse);
    ParseOutcome(f, filename, t, sv.parse);
    NodesIdleElsewhere(g, filename, t, sv.parse, sv.extract, sv.store);
  }

  lemma ExtractEnters(f: Fields, filename: string, t: FileType, content: seq<bv8>, sv: Services)
    requires f.status == Extracting
    ensures var g := Extracted(f, sv.extract);
      Entering(Next(ExtractPropertyData, g), g) &&
      Straight(Next(ExtractPropertyData, g), g, filename, t, content, sv) == Straight(ExtractPropertyData, f, filename, t, content, sv)
  {
    ExtractNeverFails(f, sv.extract);
  }

  lemma StoreEnters(f: Fields, filename: string, t: FileType, content: seq<bv8>, sv: Services)
    requires f.status == Storing
    ensures var g := Stored(f, filename, sv.store);
      Entering(Next(StoreInMemory, g), g) &&
      Straight(Next(StoreInMemory, g), g, filename, t, content, sv) == Straight(StoreInMemory, f, filename, t, content, sv)
  {
    StoreOutcome(f, filename, sv.store);
  }

  /**
   * Routing changes nothing: from any node entered with the status it expects, the graph ends
   * in the state the remaining nodes reach when run one after another, since each node leaves
   * a state it does not expect alone.
   */
  lemma {:induction false} RoutedIsStraight(n: Node, f: Fields, filename: string, t: FileType, content: seq<bv8>, sv: Services)
    requires Entering(n, f)
    ensures Run(n, f, filename, t, content, sv) == Straight(n, f, filename, t, content, sv)
    decreases Rank(n)
  {
    if n != End {
      var g := Apply(n, f, filename, t, content, sv);
      StepEnters(n, f, filename, t, content, sv);
      EdgesDescend(n, g);
      RoutedIsStraight(Next(n, g), g, filename, t, content, sv);
    }
  }

  /** process_file's graph computes the four nodes in sequence. */
  lemma GraphIsPipeline(filename: string, content: seq<bv8>, sv: Services)
    ensures Final(filename, content, sv) ==
      Stored(Extracted(Parsed(Validated(Initial, filename, GetFileType(filename), content), filename, GetFileType(filename), sv.parse), sv.extract), filename, sv.store)
  {
    RoutedIsStraight(ValidateFile, Initial, filename, GetFileType(filename), content, sv);
  }

  /**
   * A run ends COMPLETED or FAILED. From each node on, with the status the node expects, the
   * status only moves forward along PENDING, PARSING, EXTRACTING, STORING, COMPLETED, or jumps
   * to FAILED and stops there.
   */
  lemma {:induction false} RunEnds(n: Node, f: Fields, filename: string, t: FileType, content: seq<bv8>, sv: Services)
    requires Entering(n, f)
    ensures var g := Run(n, f, filename, t, content, sv);
      (g.status == Completed || g.status == Failed) && StatusRank(g.status) >= StatusRank(f.status)
    decreases Rank(n)
  {
    if n != End {
      var g := Apply(n, f, filename, t, content, sv);
      StepEnters(n, f, filename, t, content, sv);
      match n {
        case ValidateFile =>
        case ParseFile => ParseOutcome(f, filename, t, sv.parse);
        case ExtractPropertyData => ExtractNeverFails(f, sv.extract);
        case StoreInMemory => StoreOutcome(f, filename, sv.store);
        case FinalizeProcessing =>
      }
      EdgesDescend(n, g);
      RunEnds(Next(n, g), g, filename, t, content, sv);
    }
  }

  /** process_file always reports COMPLETED or FAILED, and succeeds exactly when COMPLETED. */
  lemma FinalStatus(filename: string, content: seq<bv8>, sv: Services)
    ensures var g := Final(filename, content, sv);
      g.status == Completed || g.status == Failed
  {
    RunEnds(ValidateFile, Initial, filename, GetFileType(filename), content, sv);
  }

  /** The text of a file of type `t`, when the parser returned and the helper read one. */
  function TextOf(filename: string, t: FileType, sv: Services): Option<Value>
  {
    match Dispatched(BytesRoute(t, filename), sv.parse)
    case Err(_) => None
    case Ok(p) => ParsedText.WorkflowText(p)
  }

  /** The state after validation and parsing of a file of type `t`. */
  function AfterParse(filename: string, t: FileType, content: seq<bv8>, sv: Services): Fields
  {
    Parsed(Validated(Initial, filename, t, content), filename, t, sv.parse)
  }

  /**
   * An unsupported name fails at validation with the unsupported-type message, before any
   * service is called: nothing is parsed or stored, and the size is still recorded.
   */
  lemma UnsupportedFails(filename: string, content: seq<bv8>, sv: Services)
    requires !IsSupported(filename)
    ensures var g := Final(filename, content, sv);
      && g.status == Failed && g.errorMessage == Some(UnsupportedMessage(filename))
      && !g.supported && g.fileSize == |content|
      && g.parsedContent.None? && g.documentId.None? && !g.storedSuccessfully
  {
    var v := Validated(Initial, filename, GetFileType(filename), content);
    GraphIsPipeline(filename, content, sv);
    ValidateOutcome(Initial, filename, content);
    NodesIdleElsewhere(v, filename, GetFileType(filename), sv.parse, sv.extract, sv.store);
  }

  /**
   * A file of a supported type `t` (process_file's run is the one with the get_file_type type)
   * completes exactly when the parser returned, the text helper read a text, and either the text
   * is falsy (nothing to store) or the store returned an id; it is stored exactly when the text
   * is truthy and the store returned. The property agent's outcome plays no part.
   */
  lemma SupportedOutcome(filename: string, t: FileType, content: seq<bv8>, sv: Services)
    requires t != Unsupported
    ensures var g := Run(ValidateFile, Initial, filename, t, content, sv);
      var p := AfterParse(filename, t, content, sv);
      var text := TextOf(filename, t, sv);
      && (g.status == Completed <==>
            text.Some? && (!Truthy(text.value) || sv.store(Request(Extracted(p, sv.extract), filename)).Ok?))
      && (g.storedSuccessfully <==>
            text.Some? && Truthy(text.value) && sv.store(Request(Extracted(p, sv.extract), filename)).Ok?)
      && (g.storedSuccessfully <==> g.documentId.Some?)
      && g.fileSize == |content| && g.supported
  {
    RoutedIsStraight(ValidateFile, Initial, filename, t, content, sv);
    var v := Validated(Initial, filename, t, content);
    ParseOutcome(v, filename, t, sv.parse);
    var p := AfterParse(filename, t, content, sv);
    NodesIdleElsewhere(p, filename, t, sv.parse, sv.extract, sv.store);
    if p.status == Extracting {
      ExtractNeverFails(p, sv.extract);
      StoreOutcome(Extracted(p, sv.extract), filename, sv.store);
    } else if p.status == Storing {
      StoreOutcome(p, filename, sv.store);
      assert Extracted(p, sv.extract) == p;
    }
  }

  /** The AttributeError of a parser without a bytes entry point: "'<Parser>' object has no attribute 'parse_file_from_bytes'". */
  function NoBytesEntry(t: FileType): string
    requires t != Unsupported
  {
    MissingEntry(ParserFor(t).value, ParseFileFromBytes)
  }

  /**
   * Of the supported types only PDF and PowerPoint have a bytes entry point: a file of any other
   * supported type fails in the parse node with the router's AttributeError, before anything
   * is parsed, extracted or stored.
   */
  lemma BytesParserNeeded(filename: string, t: FileType, content: seq<bv8>, sv: Services)
    requires t != Unsupported && t != Pdf && t != Powerpoint
    ensures var g := Run(ValidateFile, Initial, filename, t, content, sv);
      && g.status == Failed && g.supported
      && g.errorMessage == Some("File parsing failed: " + NoBytesEntry(t))
      && g.parsedContent.None? && g.extractedPropertyData.None? && g.documentId.None? && !g.storedSuccessfully
  {
    RoutedIsStraight(ValidateFile, Initial, filename, t, content, sv);
    var v := Validated(Initial, filename, t, content);
    var p := Parsed(v, filename, t, sv.parse);
    ParseWithoutBytesEntry(v, filename, t, sv.parse);
    NodesIdleElsewhere(p, filename, t, sv.parse, sv.extract, sv.store);
  }

  /** The parse node on a type without a bytes entry point: FAILED with the router's AttributeError. */
  lemma ParseWithoutBytesEntry(f: Fields, filename: string, t: FileType, parse: (Parser, Entry) -> Result<seq<(string, Value)>, string>)
    requires f.status == Parsing && t != Unsupported && t != Pdf && t != Powerpoint
    ensures Parsed(f, filename, t, parse) == f.(status := Failed, errorMessage := Some("File parsing failed: " + NoBytesEntry(t)))
  {
    assert BytesRoute(t, filename) == Raise(AttributeError(NoBytesEntry(t)));
  }

  /**
   * process_file on a supported Word, Excel, CSV, text, RTF or ODT file always fails with the
   * parsing message; only PDF and PowerPoint files can complete.
   */
  lemma SupportedNeedsBytesParser(filename: string, content: seq<bv8>, sv: Services)
    ensures var t := GetFileType(filename);
      t != Unsupported && t != Pdf && t != Powerpoint ==>
        Final(filename, content, sv).status == Failed
        && Final(filename, content, sv).errorMessage == Some("File parsing failed: " + NoBytesEntry(t))
    ensures Final(filename, content, sv).status == Completed ==> GetFileType(filename) in {Pdf, Powerpoint}
  {
    var t := GetFileType(filename);
    if t == Unsupported {
      UnsupportedFails(filename, content, sv);
    } else if t != Pdf && t != Powerpoint {
      BytesParserNeeded(filename, t, content, sv);
    }
  }

  /**
   * A state carries an error message exactly when it failed, and the message names the node
   * that failed it: validation, parsing or storage.
   */
  predicate MessageNamesNode(f: Fields, filename: string)
  {
    && (f.status == Failed <==> f.errorMessage.Some?)
    && (f.status == Failed ==>
          || f.errorMessage.value == UnsupportedMessage(filename)
          || StartsWith(f.errorMessage.value, "File parsing failed: ")
          || StartsWith(f.errorMessage.value, "Memory storage failed: "))
  }

  lemma PrefixStarts(prefix: string, m: string)
    ensures StartsWith(prefix + m, prefix)
  {
    assert (prefix + m)[..|prefix|] == prefix;
  }

  /** The parse node keeps the message invariant. */
  lemma ParsedKeepsMessage(f: Fields, filename: string, t: FileType, parse: (Parser, Entry) -> Result<seq<(string, Value)>, string>)
    requires MessageNamesNode(f, filename)
    ensures MessageNamesNode(Parsed(f, filename, t, parse), filename)
  {
    if f.status == Parsing {
      var out := Dispatched(BytesRoute(t, filename), parse);
      if out.Err? {
        PrefixStarts("File parsing failed: ", out.error);
      } else {
        PrefixStarts("File parsing failed: ", JoinTypeError);
      }
    }
  }

  /** The store node keeps the message invariant. */
  lemma StoredKeepsMessage(f: Fields, filename: string, store: StoreRequest -> Result<string, string>)
    requires MessageNamesNode(f, filename)
    ensures MessageNamesNode(Stored(f, filename, store), filename)
  {
    if f.status == Storing && TextTruthy(f) {
      var out := store(Request(f, filename));
      if out.Err? {
        PrefixStarts("Memory storage failed: ", out.error);
      }
    }
  }

  /** Each node keeps the message invariant. */
  lemma {:induction false} NodeKeepsMessage(n: Node, f: Fields, filename: string, t: FileType, content: seq<bv8>, sv: Services)
    requires MessageNamesNode(f, filename) && (n == ValidateFile ==> f.status == Pending)
    ensures MessageNamesNode(Apply(n, f, filename, t, content, sv), filename)
  {
    match n {
      case ValidateFile =>
      case ParseFile => ParsedKeepsMessage(f, filename, t, sv.parse);
      case ExtractPropertyData =>
      case StoreInMemory => StoredKeepsMessage(f, filename, sv.store);
      case _ =>
    }
  }

  lemma {:induction false} RunKeepsMessage(n: Node, f: Fields, filename: string, t: FileType, content: seq<bv8>, sv: Services)
    requires MessageNamesNode(f, filename) && Entering(n, f)
    ensures MessageNamesNode(Run(n, f, filename, t, content, sv), filename)
    decreases Rank(n)
  {
    if n != End {
      var g := Apply(n, f, filename, t, content, sv);
      NodeKeepsMessage(n, f, filename, t, content, sv);
      StepEnters(n, f, filename, t, content, sv);
      EdgesDescend(n, g);
      RunKeepsMessage(Next(n, g), g, filename, t, content, sv);
    }
  }

  /** process_file's answer carries an error exactly when it failed, naming the failing node. */
  lemma FailureNamesItsNode(filename: string, content: seq<bv8>, sv: Services)
    ensures MessageNamesNode(Final(filename, content, sv), filename)
  {
    RunKeepsMessage(ValidateFile, Initial, filename, GetFileType(filename), content, sv);
  }

  /**
   * The single-file path asks for DocumentType(file_type.lower()), which names a document type
   * only for PDF, CSV, RTF and ODT; the batch pipeline maps every file type itself. The two agree
   * except on Word, Excel and PowerPoint files, which the single-file path stores as TXT.
   */
  lemma StoredTypeVersusBatch(t: FileType)
    ensures StoredType(FileTypeValue(t)) == ParallelNodes.DocumentTypeFor(t) <==> t !in {Word, Excel, Powerpoint}
  {
    StoredTypeOf(t);
  }
}

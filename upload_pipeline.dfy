// The file-processing API: the two endpoints that check the name, run one of the two pipelines
// and turn what was raised into an HTTP error, and the pipelines themselves (file information,
// parsing through the router, then the optional property extraction over the helper's text).
// The parsers, the language model and float() are the parameters in Services; whether the
// path exists on disk is a parameter of the path endpoint.

module UploadPipeline {
  import opened Wrappers
  import opened PyValues
  import opened FileRouting
  import ParsedText
  import FileNodes
  import PropertyExtraction

  /** Where the file came from: a path on disk, or uploaded bytes of the given size. */
  datatype Source = FromPath(path: string) | FromBytes(size: nat)

  /** The file_info dict. */
  datatype FileInfo = FileInfo(filename: string, fileType: FileType, source: Source, supported: bool)

  /** The result dict of a pipeline. */
  datatype PipelineResult = PipelineResult(
    fileInfo: FileInfo, parsedContent: Option<seq<(string, Value)>>, extractedPropertyData: Option<Value>)

  /** What the endpoints answer: the pipeline's result, or an HTTPException. */
  datatype Response = Success(result: PipelineResult) | HttpError(status: nat, detail: string)

  /**
   * The services the pipelines call: `parse` is what a parser entry point returns for this file
   * (or the text of what it raised), `chain` and `toFloat` are the property agent's model chain
   * and float().
   */
  datatype Services = Services(
    parse: (Parser, Entry) -> Result<seq<(string, Value)>, string>,
    chain: string -> Result<seq<(string, Value)>, string>,
    toFloat: string -> Option<Value>)

  /**
   * Step 3: with the flag set and a non-empty parse result, the helper's text goes to the
   * property agent when it is not empty; a TypeError in the helper is kept as an error dict.
   */
  function PropertyStep(parsed: seq<(string, Value)>, extract: bool, sv: Services): Option<Value>
  {
    if extract && parsed != [] then
      match ParsedText.UploadText(parsed)
      case Err(m) => Some(VDict([("error", VStr("Failed to extract property data: " + m))]))
      case Ok(text) =>
        if text != "" then Some(PropertyExtraction.Extraction(text, sv.chain, sv.toFloat)) else None
    else None
  }

  /** The common body of both pipelines: parse through the router, then the property step. */
  function Pipeline(info: FileInfo, route: Dispatch, extract: bool, sv: Services): Result<PipelineResult, string>
  {
    match Dispatched(route, sv.parse)
    case Err(m) => Err("Failed to parse file: " + m)
    case Ok(parsed) => Ok(PipelineResult(info, Some(parsed), PropertyStep(parsed, extract, sv)))
  }

  /** _process_file_pipeline for a file whose name the router types as `t`: parse_file on the path. */
  function FilePipeline(path: string, filename: string, t: FileType, extract: bool, sv: Services): Result<PipelineResult, string>
  {
    Pipeline(FileInfo(filename, t, FromPath(path), t != Unsupported), PathRoute(t, filename), extract, sv)
  }

  /** _process_file_content_pipeline for a file typed `t`: parse_file_from_bytes on the content. */
  function ContentPipeline(content: seq<bv8>, filename: string, t: FileType, extract: bool, sv: Services): Result<PipelineResult, string>
  {
    Pipeline(FileInfo(filename, t, FromBytes(|content|), t != Unsupported), BytesRoute(t, filename), extract, sv)
  }

  /** The process-file endpoint once the path exists and its name is typed `t`. */
  function FileRequest(path: string, filename: string, t: FileType, extract: bool, sv: Services): Response
  {
    if t == Unsupported then HttpError(400, FileNodes.UnsupportedMessage(filename))
    else
      match FilePipeline(path, filename, t, extract, sv)
      case Ok(r) => Success(r)
      case Err(m) => HttpError(500, "Failed to process file: " + m)
  }

  /** The process-file endpoint: 404 for a missing path, 400 for an unsupported name, 500 for a raise. */
  function ProcessFileRequest(path: string, onDisk: bool, extract: bool, sv: Services): Response
  {
    if !onDisk then HttpError(404, "File not found: " + path)
    else
      var filename := FinalComponent(path);
      FileRequest(path, filename, GetFileType(filename), extract, sv)
  }

  /** The process-upload endpoint for a name typed `t`: 400 when unsupported, 500 for a raise. */
  function Upload(content: seq<bv8>, filename: string, t: FileType, extract: bool, sv: Services): Response
  {
    if t == Unsupported then HttpError(400, FileNodes.UnsupportedMessage(filename))
    else
      match ContentPipeline(content, filename, t, extract, sv)
      case Ok(r) => Success(r)
      case Err(m) => HttpError(500, "Failed to process uploaded file: " + m)
  }

  function ProcessUpload(content: seq<bv8>, filename: string, extract: bool, sv: Services): Response
  {
    Upload(content, filename, GetFileType(filename), extract, sv)
  }

  // ------------------------------------------------------------ properties

  /**
   * A pipeline fails exactly when the router or the parser raised, with that message; whatever
   * the property step meets (a helper TypeError, a model failure) stays inside the result.
   */
  lemma PipelineFailsOnlyOnParse(info: FileInfo, route: Dispatch, extract: bool, sv: Services)
    ensures Pipeline(info, route, extract, sv).Err? <==> Dispatched(route, sv.parse).Err?
    ensures Pipeline(info, route, extract, sv).Err? ==>
      Pipeline(info, route, extract, sv).error == "Failed to parse file: " + Dispatched(route, sv.parse).error
    ensures Pipeline(info, route, extract, sv).Ok? ==>
      Pipeline(info, route, extract, sv).value.parsedContent == Some(Dispatched(route, sv.parse).value)
  {
  }

  /**
   * The property agent runs only when the flag is set, the parse result is non-empty and the
   * helper's text is non-empty: otherwise the step's outcome does not depend on the agent.
   */
  lemma AgentRunsOnlyWhenNeeded(parsed: seq<(string, Value)>, extract: bool, sv: Services,
                                 chain: string -> Result<seq<(string, Value)>, string>)
    ensures !extract ==> PropertyStep(parsed, extract, sv).None?
    ensures !(extract && parsed != [] && ParsedText.UploadText(parsed).Ok? && ParsedText.UploadText(parsed).value != "") ==>
      PropertyStep(parsed, extract, sv) == PropertyStep(parsed, extract, sv.(chain := chain))
    ensures extract && parsed != [] && ParsedText.UploadText(parsed).Ok? && ParsedText.UploadText(parsed).value != "" ==>
      PropertyStep(parsed, extract, sv) ==
        Some(PropertyExtraction.Extraction(ParsedText.UploadText(parsed).value, sv.chain, sv.toFloat))
  {
  }

  /** An unsupported name is answered 400 by both endpoints before anything is parsed. */
  lemma UnsupportedRejected(content: seq<bv8>, path: string, filename: string, extract: bool, sv: Services)
    ensures FileRequest(path, filename, Unsupported, extract, sv) == HttpError(400, FileNodes.UnsupportedMessage(filename))
    ensures Upload(content, filename, Unsupported, extract, sv) == HttpError(400, FileNodes.UnsupportedMessage(filename))
  {
  }

  /**
   * Of the supported types only PDF and PowerPoint files can be uploaded: for every other type
   * the router's parse_file_from_bytes call raises AttributeError, so the upload endpoint
   * answers 500 whatever the parsers would return.
   */
  lemma UploadNeedsBytesParser(content: seq<bv8>, filename: string, t: FileType, extract: bool, sv: Services)
    requires t != Unsupported && t !in {Pdf, Powerpoint}
    ensures var d := BytesRoute(t, filename);
      && d.Raise? && d.error.AttributeError?
      && Upload(content, filename, t, extract, sv) ==
           HttpError(500, "Failed to process uploaded file: " + ("Failed to parse file: " + d.error.message))
  {
    var d := BytesRoute(t, filename);
    assert Dispatched(d, sv.parse) == Err(d.error.message);
    var info := FileInfo(filename, t, FromBytes(|content|), true);
    assert ContentPipeline(content, filename, t, extract, sv) == Pipeline(info, d, extract, sv);
  }

  /** A successful upload reports the name, its type, the content size and the parse result. */
  lemma UploadSuccess(content: seq<bv8>, filename: string, t: FileType, extract: bool, sv: Services)
    requires Upload(content, filename, t, extract, sv).Success?
    ensures var r := Upload(content, filename, t, extract, sv).result;
      && r.fileInfo == FileInfo(filename, t, FromBytes(|content|), true)
      && t in {Pdf, Powerpoint}
      && r.parsedContent == Some(Dispatched(BytesRoute(t, filename), sv.parse).value)
  {
  }

  /** Every supported type has a path parser: a path request fails only when its parser raises. */
  lemma PathRequestParses(path: string, filename: string, t: FileType, extract: bool, sv: Services)
    requires t != Unsupported
    ensures var d := PathRoute(t, filename);
      && d.Call?
      && (FileRequest(path, filename, t, extract, sv).Success? <==> sv.parse(d.parser, d.entry).Ok?)
  {
  }
}

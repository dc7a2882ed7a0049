// The file router: the extension table that decides a file's type, the dispatch of a parse
// request to the parser for that type, and the two reports it builds over its tables.
// Paths follow POSIX pathlib rules: the final component is the last part between slashes that
// is neither empty nor ".", and its suffix starts at its last dot unless that dot is the first
// or the last character.

module FileRouting {
  import opened Wrappers
  import opened Strings

  datatype FileType = Powerpoint | Pdf | Word | Excel | Text | Csv | Rtf | Odt | Unsupported

  /** The enum's string value. */
  function FileTypeValue(t: FileType): string
  {
    match t
    case Powerpoint => "powerpoint"
    case Pdf => "pdf"
    case Word => "word"
    case Excel => "excel"
    case Text => "text"
    case Csv => "csv"
    case Rtf => "rtf"
    case Odt => "odt"
    case Unsupported => "unsupported"
  }

  /** Iteration order of the enum. */
  const AllFileTypes: seq<FileType> := [Powerpoint, Pdf, Word, Excel, Text, Csv, Rtf, Odt, Unsupported]

  /** The router's extension table, in declaration order. */
  const ExtensionTable: seq<(string, FileType)> := [
    (".pptx", Powerpoint), (".ppt", Powerpoint),
    (".pdf", Pdf), (".docx", Word), (".doc", Word), (".rtf", Rtf), (".odt", Odt),
    (".xlsx", Excel), (".xls", Excel), (".csv", Csv), (".tsv", Csv),
    (".txt", Text), (".text", Text), (".log", Text), (".md", Text), (".markdown", Text)]

  /** The last path part that is neither empty nor "." (pathlib drops those), or "". */
  function LastPart(parts: seq<string>): string
  {
    if parts == [] then ""
    else
      var p := parts[|parts| - 1];
      if p == "" || p == "." then LastPart(parts[..|parts| - 1]) else p
  }

  /** Path(p).name */
  function FinalComponent(path: string): string
  {
    LastPart(SplitOn(path, '/'))
  }

  /** The index of the last '.' in `s`, or -1 (str.rfind). */
  function LastDot(s: string): (r: int)
    ensures -1 <= r < |s|
    ensures r >= 0 ==> s[r] == '.' && forall j :: r < j < |s| ==> s[j] != '.'
    ensures r == -1 ==> forall j :: 0 <= j < |s| ==> s[j] != '.'
  {
    if s == [] then -1
    else if s[|s| - 1] == '.' then |s| - 1
    else LastDot(s[..|s| - 1])
  }

  /** PurePath.suffix of a final component. */
  function NameSuffix(name: string): (r: string)
    ensures r == "" || (r[0] == '.' && EndsWith(name, r) && |r| < |name|)
  {
    var i := LastDot(name);
    if 0 < i < |name| - 1 then name[i..] else ""
  }

  function Suffix(path: string): string
  {
    NameSuffix(FinalComponent(path))
  }

  function Lookup(table: seq<(string, FileType)>, ext: string): (t: FileType)
    ensures t != Unsupported ==> exists i :: 0 <= i < |table| && table[i] == (ext, t)
  {
    if table == [] then Unsupported
    else if table[0].0 == ext then table[0].1
    else
      var t := Lookup(table[1..], ext);
      assert t != Unsupported ==> exists i :: 0 <= i < |table| && table[i] == (ext, t) by {
        if t != Unsupported {
          var i :| 0 <= i < |table[1..]| && table[1..][i] == (ext, t);
          assert table[i + 1] == (ext, t);
        }
      }
      t
  }

  /** get_file_type: the lower-cased suffix looked up in the table, UNSUPPORTED otherwise. */
  function GetFileType(filename: string): FileType
  {
    Lookup(ExtensionTable, Lower(Suffix(filename)))
  }

  predicate IsSupported(filename: string)
  {
    GetFileType(filename) != Unsupported
  }

  /** Every type in the table is a real type, and no extension is listed twice. */
  lemma ExtensionTableShape()
    ensures forall i :: 0 <= i < |ExtensionTable| ==> ExtensionTable[i].1 != Unsupported
    ensures UniqueExtensions(ExtensionTable)
  {
    var t := ExtensionTable;
    forall i, j | 0 <= i < j < |t| ensures t[i].0 != t[j].0 {
      // every pair differs in length, in its second or third character, or in its last one
      assert |t[i].0| != |t[j].0| || t[i].0[1] != t[j].0[1] || t[i].0[2] != t[j].0[2]
        || t[i].0[|t[i].0| - 1] != t[j].0[|t[j].0| - 1];
    }
  }

  predicate UniqueExtensions(table: seq<(string, FileType)>)
  {
    forall i, j :: 0 <= i < j < |table| ==> table[i].0 != table[j].0
  }

  /** On a table without repeated extensions, lookup finds exactly the listed type. */
  lemma {:induction false} LookupListed(table: seq<(string, FileType)>, i: nat)
    requires i < |table|
    requires forall a, b :: 0 <= a < b < |table| ==> table[a].0 != table[b].0
    ensures Lookup(table, table[i].0) == table[i].1
  {
    if i > 0 {
      assert table[0].0 != table[i].0;
      LookupListed(table[1..], i - 1);
    }
  }

  /**
   * A file is supported exactly when its lower-cased suffix is one of the table's extensions,
   * and then its type is the one listed beside it.
   */
  lemma SupportedIffListed(filename: string)
    ensures IsSupported(filename) <==> exists i :: 0 <= i < |ExtensionTable| && ExtensionTable[i].0 == Lower(Suffix(filename))
    ensures forall i :: 0 <= i < |ExtensionTable| && ExtensionTable[i].0 == Lower(Suffix(filename))
              ==> GetFileType(filename) == ExtensionTable[i].1
  {
    ExtensionTableShape();
    var ext := Lower(Suffix(filename));
    forall i | 0 <= i < |ExtensionTable| && ExtensionTable[i].0 == ext
      ensures GetFileType(filename) == ExtensionTable[i].1
    {
      LookupListed(ExtensionTable, i);
    }
  }

  /** The PowerPoint extensions head the table, so a file with one is routed to PowerPoint. */
  lemma PowerpointRouted(filename: string)
    requires Lower(Suffix(filename)) in [".pptx", ".ppt"]
    ensures GetFileType(filename) == Powerpoint
  {
    var ext := Lower(Suffix(filename));
    var t := ExtensionTable;
    assert t[0] == (".pptx", Powerpoint);
    if ext != ".pptx" {
      assert t[1..][0] == (".ppt", Powerpoint);
    }
  }

  // ------------------------------------------------------------ case-insensitivity

  lemma {:induction false} LowerSplit(s: string)
    ensures |SplitOn(Lower(s), '/')| == |SplitOn(s, '/')|
    ensures forall i :: 0 <= i < |SplitOn(s, '/')| ==> SplitOn(Lower(s), '/')[i] == Lower(SplitOn(s, '/')[i])
  {
    if s != [] {
      LowerSplit(s[1..]);
      assert Lower(s)[1..] == Lower(s[1..]);
      assert Lower(s)[0] == LowerChar(s[0]);
      var rest := SplitOn(s[1..], '/');
      if s[0] != '/' {
        assert Lower([s[0]] + rest[0]) == [LowerChar(s[0])] + Lower(rest[0]);
      }
    }
  }

  lemma LowerOf(s: string, c: char)
    ensures Lower(s) == [c] <==> (|s| == 1 && LowerChar(s[0]) == c)
  {
  }

  lemma {:induction false} LowerLastPart(parts: seq<string>, lowered: seq<string>)
    requires |lowered| == |parts|
    requires forall i :: 0 <= i < |parts| ==> lowered[i] == Lower(parts[i])
    ensures LastPart(lowered) == Lower(LastPart(parts))
  {
    if parts != [] {
      var p := parts[|parts| - 1];
      LowerOf(p, '.');
      assert Lower(p) == "" <==> p == "";
      LowerLastPart(parts[..|parts| - 1], lowered[..|lowered| - 1]);
    }
  }

  lemma {:induction false} LowerLastDot(s: string)
    ensures LastDot(Lower(s)) == LastDot(s)
  {
    if s != [] {
      assert Lower(s)[..|s| - 1] == Lower(s[..|s| - 1]);
      LowerLastDot(s[..|s| - 1]);
    }
  }

  lemma LowerDrop(s: string, i: nat)
    requires i <= |s|
    ensures Lower(s)[i..] == Lower(s[i..])
  {
    assert forall j :: 0 <= j < |s| - i ==> Lower(s)[i..][j] == Lower(s[i..])[j];
  }

  lemma LowerFinalComponent(filename: string)
    ensures FinalComponent(Lower(filename)) == Lower(FinalComponent(filename))
  {
    LowerSplit(filename);
    LowerLastPart(SplitOn(filename, '/'), SplitOn(Lower(filename), '/'));
  }

  lemma LowerNameSuffix(name: string)
    ensures NameSuffix(Lower(name)) == Lower(NameSuffix(name))
  {
    LowerLastDot(name);
    var i := LastDot(name);
    if 0 < i < |name| - 1 {
      LowerDrop(name, i);
    }
  }

  /** Lower-casing a path lower-cases its suffix and nothing else about it. */
  lemma LowerSuffix(filename: string)
    ensures Suffix(Lower(filename)) == Lower(Suffix(filename))
  {
    LowerFinalComponent(filename);
    LowerNameSuffix(FinalComponent(filename));
  }

  /** The type lookup does not depend on letter case anywhere in the name. */
  lemma GetFileTypeIgnoresCase(filename: string)
    ensures GetFileType(Lower(filename)) == GetFileType(filename)
  {
    LowerSuffix(filename);
    LowerIdempotent(Suffix(filename));
  }

  // ------------------------------------------------------------ dispatch

  datatype Parser = PowerPointParser | PdfParser | DocParser | ExcelParser | CsvParser | TextParser
                  | RtfParser | OdtParser

  function ParserName(p: Parser): string
  {
    match p
    case PowerPointParser => "PowerPointParser"
    case PdfParser => "PDFParser"
    case DocParser => "DocParser"
    case ExcelParser => "ExcelParser"
    case CsvParser => "CSVParser"
    case TextParser => "TextParser"
    case RtfParser => "RTFParser"
    case OdtParser => "ODTParser"
  }

  /** The router's parser registry: every type except UNSUPPORTED has one. */
  function ParserFor(t: FileType): Option<Parser>
  {
    match t
    case Powerpoint => Some(PowerPointParser)
    case Pdf => Some(PdfParser)
    case Word => Some(DocParser)
    case Excel => Some(ExcelParser)
    case Csv => Some(CsvParser)
    case Text => Some(TextParser)
    case Rtf => Some(RtfParser)
    case Odt => Some(OdtParser)
    case Unsupported => None
  }

  datatype Entry = ParsePowerpoint | ParseFile | ParsePowerpointFromBytes | ParseFileFromBytes

  function EntryName(e: Entry): string
  {
    match e
    case ParsePowerpoint => "parse_powerpoint"
    case ParseFile => "parse_file"
    case ParsePowerpointFromBytes => "parse_powerpoint_from_bytes"
    case ParseFileFromBytes => "parse_file_from_bytes"
  }

  /** Which entry points each parser class defines. */
  predicate Defines(p: Parser, e: Entry)
  {
    match p
    case PowerPointParser => e == ParsePowerpoint || e == ParsePowerpointFromBytes
    case PdfParser => e == ParseFile || e == ParseFileFromBytes
    case _ => e == ParseFile
  }

  datatype RouterError = ValueError(message: string) | NotImplementedError(message: string) | AttributeError(message: string)

  /** What a parse request does: raise, or hand the file to one parser entry point. */
  datatype Dispatch = Raise(error: RouterError) | Call(parser: Parser, entry: Entry)

  /** The text of the AttributeError a parser without the entry point `e` raises. */
  function MissingEntry(p: Parser, e: Entry): string
  {
    "'" + ParserName(p) + "' object has no attribute '" + EntryName(e) + "'"
  }

  /** The common body of both entry points, once the file's type `t` is known. */
  function Route(t: FileType, filename: string, fromBytes: bool): Dispatch
  {
    if t == Unsupported then Raise(ValueError("Unsupported file type: " + filename))
    else
      match ParserFor(t)
      case None => Raise(NotImplementedError("Parser for " + FileTypeValue(t) + " not yet implemented"))
      case Some(p) =>
        var e := if t == Powerpoint then (if fromBytes then ParsePowerpointFromBytes else ParsePowerpoint)
                 else (if fromBytes then ParseFileFromBytes else ParseFile);
        if Defines(p, e) then Call(p, e)
        else Raise(AttributeError(MissingEntry(p, e)))
  }

  /**
   * parse_file for a file of type `t` (its get_file_type): an unsupported file raises
   * ValueError naming it; every supported type has a path parser.
   */
  function PathRoute(t: FileType, filename: string): (d: Dispatch)
    ensures d.Raise? <==> t == Unsupported
    ensures d.Raise? ==> d.error == ValueError("Unsupported file type: " + filename)
    ensures d.Call? ==> ParserFor(t) == Some(d.parser) && Defines(d.parser, d.entry)
    ensures d.Call? ==> (d.entry == ParsePowerpoint <==> t == Powerpoint)
    ensures d.Call? ==> d.entry == ParsePowerpoint || d.entry == ParseFile
  {
    Route(t, filename, false)
  }

  /**
   * parse_file_from_bytes for a file of type `t`: an unsupported file raises ValueError; only
   * PDF and PowerPoint reach a bytes parser, every other supported type raises AttributeError
   * at the call because its parser has no bytes entry point.
   */
  function BytesRoute(t: FileType, filename: string): (d: Dispatch)
    ensures d.Call? <==> t in {Pdf, Powerpoint}
    ensures t == Unsupported ==> d == Raise(ValueError("Unsupported file type: " + filename))
    ensures t != Unsupported && d.Raise? ==> d.error.AttributeError?
    ensures d.Call? ==> ParserFor(t) == Some(d.parser) && Defines(d.parser, d.entry)
    ensures d.Call? ==> d.entry == ParsePowerpointFromBytes || d.entry == ParseFileFromBytes
  {
    Route(t, filename, true)
  }

  /** What a router call returns: the called entry point's result, or the text of what was raised. */
  function Dispatched<R>(d: Dispatch, parse: (Parser, Entry) -> Result<R, string>): Result<R, string>
  {
    match d
    case Raise(e) => Err(e.message)
    case Call(p, entry) => parse(p, entry)
  }

  function ParseFileRoute(filename: string): Dispatch
  {
    PathRoute(GetFileType(filename), filename)
  }

  function ParseBytesRoute(filename: string): Dispatch
  {
    BytesRoute(GetFileType(filename), filename)
  }

  /** The NotImplementedError branches of both entry points cannot be reached. */
  lemma NeverNotImplemented(t: FileType, filename: string, fromBytes: bool)
    ensures !(Route(t, filename, fromBytes).Raise? && Route(t, filename, fromBytes).error.NotImplementedError?)
  {
  }

  // ------------------------------------------------------------ reports

  /** The table's extensions for one type, in table order. */
  function ExtensionsOf(table: seq<(string, FileType)>, t: FileType): seq<string>
  {
    if table == [] then []
    else (if table[0].1 == t then [table[0].0] else []) + ExtensionsOf(table[1..], t)
  }

  lemma {:induction false} ExtensionsOfSnoc(table: seq<(string, FileType)>, e: (string, FileType), t: FileType)
    ensures ExtensionsOf(table + [e], t) == ExtensionsOf(table, t) + (if e.1 == t then [e.0] else [])
  {
    if table == [] {
      assert table + [e] == [e];
      assert [e][1..] == [];
    } else {
      assert (table + [e])[0] == table[0];
      assert (table + [e])[1..] == table[1..] + [e];
      ExtensionsOfSnoc(table[1..], e, t);
    }
  }

  lemma {:induction false} ExtensionsOfMembers(table: seq<(string, FileType)>, t: FileType)
    ensures forall x :: x in ExtensionsOf(table, t) <==> exists i :: 0 <= i < |table| && table[i] == (x, t)
  {
    if table != [] {
      ExtensionsOfMembers(table[1..], t);
      forall x | (exists i :: 0 <= i < |table| && table[i] == (x, t)) ensures x in ExtensionsOf(table, t) {
        var i :| 0 <= i < |table| && table[i] == (x, t);
        if i > 0 {
          assert table[1..][i - 1] == (x, t);
        }
      }
      forall x | x in ExtensionsOf(table[1..], t) ensures exists i :: 0 <= i < |table| && table[i] == (x, t) {
        var i :| 0 <= i < |table[1..]| && table[1..][i] == (x, t);
        assert table[i + 1] == (x, t);
      }
    }
  }

  lemma {:induction false} ExtensionsOfAbsent(table: seq<(string, FileType)>, t: FileType)
    requires forall i :: 0 <= i < |table| ==> table[i].1 != t
    ensures ExtensionsOf(table, t) == []
  {
    if table != [] {
      ExtensionsOfAbsent(table[1..], t);
    }
  }

  /** The position of a type's first entry in the table (|table| when absent). */
  function FirstIndexOf(table: seq<(string, FileType)>, t: FileType): (r: nat)
    ensures r <= |table|
    ensures r < |table| ==> table[r].1 == t
    ensures forall i :: 0 <= i < r ==> table[i].1 != t
  {
    if table == [] then 0
    else if table[0].1 == t then 0
    else 1 + FirstIndexOf(table[1..], t)
  }

  predicate KeysDistinct(formats: seq<(FileType, seq<string>)>)
  {
    forall i, j :: 0 <= i < j < |formats| ==> formats[i].0 != formats[j].0
  }

  /** The report get_supported_formats builds, after the first `n` table entries. */
  ghost predicate FormatsAfter(table: seq<(string, FileType)>, n: nat, formats: seq<(FileType, seq<string>)>)
    requires n <= |table|
  {
    KeysDistinct(formats)
    && (forall t :: (exists k :: 0 <= k < |formats| && formats[k].0 == t) <==> FirstIndexOf(table, t) < n)
    && (forall k :: 0 <= k < |formats| ==> formats[k].1 == ExtensionsOf(table[..n], formats[k].0))
    && (forall a, b :: 0 <= a < b < |formats| ==> FirstIndexOf(table, formats[a].0) < FirstIndexOf(table, formats[b].0))
  }

  /** Insert-or-append on an association list keyed by file type. */
  method AddExtension(formats: seq<(FileType, seq<string>)>, t: FileType, ext: string)
    returns (formats': seq<(FileType, seq<string>)>)
    requires KeysDistinct(formats)
    ensures KeysDistinct(formats')
    ensures (exists k :: 0 <= k < |formats| && formats[k].0 == t) ==>
      |formats'| == |formats| && forall k :: 0 <= k < |formats| ==>
        formats'[k] == (if formats[k].0 == t then (t, formats[k].1 + [ext]) else formats[k])
    ensures (forall k :: 0 <= k < |formats| ==> formats[k].0 != t) ==> formats' == formats + [(t, [ext])]
  {
    var k := 0;
    while k < |formats| && formats[k].0 != t
      invariant 0 <= k <= |formats|
      invariant forall j :: 0 <= j < k ==> formats[j].0 != t
    {
      k := k + 1;
    }
    if k == |formats| {
      formats' := formats + [(t, [ext])];
    } else {
      formats' := formats[k := (t, formats[k].1 + [ext])];
    }
  }

  /**
   * get_supported_formats: one entry per type that has extensions, in order of first
   * appearance, each holding exactly that type's extensions in table order.
   */
  method GetSupportedFormats() returns (formats: seq<(FileType, seq<string>)>)
    ensures KeysDistinct(formats)
    ensures forall t :: (exists k :: 0 <= k < |formats| && formats[k].0 == t) <==> t in ExtensionTypes()
    ensures forall k :: 0 <= k < |formats| ==> formats[k].1 == ExtensionsOf(ExtensionTable, formats[k].0)
    ensures forall a, b :: 0 <= a < b < |formats| ==>
      FirstIndexOf(ExtensionTable, formats[a].0) < FirstIndexOf(ExtensionTable, formats[b].0)
  {
    var table := ExtensionTable;
    formats := [];
    for n := 0 to |table|
      invariant FormatsAfter(table, n, formats)
    {
      var (ext, t) := table[n];
      ghost var before := formats;
      assert table[..n + 1] == table[..n] + [table[n]];
      formats := AddExtension(formats, t, ext);
      if exists k :: 0 <= k < |before| && before[k].0 == t {
        FormatsStepKnown(table, n, before, formats);
      } else {
        FormatsStepNew(table, n, before, formats);
      }
    }
    assert table[..|table|] == table;
    forall t ensures (exists k :: 0 <= k < |formats| && formats[k].0 == t) <==> t in ExtensionTypes() {
      FirstIndexInTypes(t);
    }
  }

  /** The types that occur in the table. */
  function ExtensionTypes(): set<FileType>
  {
    TypesOf(ExtensionTable)
  }

  lemma FirstIndexInTypes(t: FileType)
    ensures FirstIndexOf(ExtensionTable, t) < |ExtensionTable| <==> t in ExtensionTypes()
  {
    if t in ExtensionTypes() {
      var i :| 0 <= i < |ExtensionTable| && ExtensionTable[i].1 == t;
    }
  }

  lemma {:induction false} ExtensionsOfStep(table: seq<(string, FileType)>, n: nat)
    requires n < |table|
    ensures forall u :: ExtensionsOf(table[..n + 1], u) == ExtensionsOf(table[..n], u) + (if table[n].1 == u then [table[n].0] else [])
  {
    assert table[..n + 1] == table[..n] + [table[n]];
    forall u ensures ExtensionsOf(table[..n + 1], u) == ExtensionsOf(table[..n], u) + (if table[n].1 == u then [table[n].0] else []) {
      ExtensionsOfSnoc(table[..n], table[n], u);
    }
  }

  /** A type already reported: its entry grows by the new extension, the key set is unchanged. */
  lemma FormatsStepKnown(table: seq<(string, FileType)>, n: nat, before: seq<(FileType, seq<string>)>,
                         after: seq<(FileType, seq<string>)>)
    requires n < |table| && FormatsAfter(table, n, before)
    requires KeysDistinct(after)
    requires exists k :: 0 <= k < |before| && before[k].0 == table[n].1
    requires |after| == |before| && forall k :: 0 <= k < |before| ==>
        after[k] == (if before[k].0 == table[n].1 then (table[n].1, before[k].1 + [table[n].0]) else before[k])
    ensures FormatsAfter(table, n + 1, after)
  {
    var t := table[n].1;
    ExtensionsOfStep(table, n);
    assert forall k :: 0 <= k < |after| ==> after[k].0 == before[k].0;
    SameKeysStep(table, n, before, after);
  }

  lemma SameKeysStep(table: seq<(string, FileType)>, n: nat, before: seq<(FileType, seq<string>)>,
                     after: seq<(FileType, seq<string>)>)
    requires n < |table|
    requires forall u :: (exists k :: 0 <= k < |before| && before[k].0 == u) <==> FirstIndexOf(table, u) < n
    requires exists k :: 0 <= k < |before| && before[k].0 == table[n].1
    requires |after| == |before| && forall k :: 0 <= k < |after| ==> after[k].0 == before[k].0
    ensures forall u :: (exists k :: 0 <= k < |after| && after[k].0 == u) <==> FirstIndexOf(table, u) < n + 1
  {
    var t := table[n].1;
    assert FirstIndexOf(table, t) < n;
    forall u ensures (exists k :: 0 <= k < |after| && after[k].0 == u) <==> FirstIndexOf(table, u) < n + 1 {
      if FirstIndexOf(table, u) == n {
        assert false;
      }
      if exists k :: 0 <= k < |after| && after[k].0 == u {
        var k :| 0 <= k < |after| && after[k].0 == u;
        assert before[k].0 == u;
      }
      if FirstIndexOf(table, u) < n {
        var k :| 0 <= k < |before| && before[k].0 == u;
        assert after[k].0 == u;
      }
    }
  }

  /** A type not yet reported: it is appended with its first extension, after every earlier type. */
  lemma FormatsStepNew(table: seq<(string, FileType)>, n: nat, before: seq<(FileType, seq<string>)>,
                       after: seq<(FileType, seq<string>)>)
    requires n < |table| && FormatsAfter(table, n, before)
    requires KeysDistinct(after)
    requires forall k :: 0 <= k < |before| ==> before[k].0 != table[n].1
    requires after == before + [(table[n].1, [table[n].0])]
    ensures FormatsAfter(table, n + 1, after)
  {
    var t := table[n].1;
    ExtensionsOfStep(table, n);
    assert FirstIndexOf(table, t) == n;
    forall a | 0 <= a < |before| ensures FirstIndexOf(table, before[a].0) < FirstIndexOf(table, t) {
      assert FirstIndexOf(table, before[a].0) < n;
    }
    NewKeyStep(table, n, before, after);
    assert ExtensionsOf(table[..n], t) == [] by {
      assert forall i :: 0 <= i < n ==> table[..n][i].1 != t;
      ExtensionsOfAbsent(table[..n], t);
    }
  }

  lemma NewKeyStep(table: seq<(string, FileType)>, n: nat, before: seq<(FileType, seq<string>)>,
                   after: seq<(FileType, seq<string>)>)
    requires n < |table|
    requires forall u :: (exists k :: 0 <= k < |before| && before[k].0 == u) <==> FirstIndexOf(table, u) < n
    requires after == before + [(table[n].1, [table[n].0])]
    ensures forall u :: (exists k :: 0 <= k < |after| && after[k].0 == u) <==> FirstIndexOf(table, u) < n + 1
  {
    var t := table[n].1;
    forall u ensures (exists k :: 0 <= k < |after| && after[k].0 == u) <==> FirstIndexOf(table, u) < n + 1 {
      if FirstIndexOf(table, u) == n {
        assert u == t;
        assert after[|before|].0 == u;
      }
      if exists k :: 0 <= k < |after| && after[k].0 == u {
        var k :| 0 <= k < |after| && after[k].0 == u;
        if k < |before| {
          assert before[k].0 == u;
        }
      }
      if FirstIndexOf(table, u) < n {
        var k :| 0 <= k < |before| && before[k].0 == u;
        assert after[k].0 == u;
      }
    }
  }

  /** The types a table lists. */
  function TypesOf(table: seq<(string, FileType)>): set<FileType>
  {
    set i | 0 <= i < |table| :: table[i].1
  }

  /**
   * On a table that lists no extension twice, a report keyed by the table's types whose
   * entries are ExtensionsOf lists every extension exactly once, under its own type.
   */
  lemma {:induction false} ReportListsEachExtension(table: seq<(string, FileType)>, formats: seq<(FileType, seq<string>)>, i: nat)
    requires i < |table|
    requires UniqueExtensions(table)
    requires forall t :: (exists k :: 0 <= k < |formats| && formats[k].0 == t) <==> t in TypesOf(table)
    requires forall k :: 0 <= k < |formats| ==> formats[k].1 == ExtensionsOf(table, formats[k].0)
    ensures exists k :: 0 <= k < |formats| && formats[k].0 == table[i].1 && table[i].0 in formats[k].1
    ensures forall k :: 0 <= k < |formats| && table[i].0 in formats[k].1 ==> formats[k].0 == table[i].1
  {
    var (ext, t) := table[i];
    assert t in TypesOf(table);
    var k :| 0 <= k < |formats| && formats[k].0 == t;
    ExtensionsOfMembers(table, t);
    assert ext in formats[k].1;
    forall k' | 0 <= k' < |formats| && ext in formats[k'].1 ensures formats[k'].0 == t {
      ExtensionsOfMembers(table, formats[k'].0);
      var j :| 0 <= j < |table| && table[j] == (ext, formats[k'].0);
      assert j == i;
    }
  }

  predicate Reported(status: seq<(FileType, bool)>, t: FileType)
  {
    exists k :: 0 <= k < |status| && status[k].0 == t
  }

  /** get_parser_status: every type except UNSUPPORTED, in enum order, with its registry flag. */
  method GetParserStatus() returns (status: seq<(FileType, bool)>)
    ensures |status| == |AllFileTypes| - 1
    ensures forall k :: 0 <= k < |status| ==> status[k] == (AllFileTypes[k], true)
    ensures forall t :: t != Unsupported ==> Reported(status, t)
    ensures forall k :: 0 <= k < |status| ==> status[k].0 != Unsupported
  {
    status := [];
    var types := AllFileTypes;
    for n := 0 to |types|
      invariant n < |types| ==> |status| == n
      invariant n == |types| ==> |status| == n - 1
      invariant forall k :: 0 <= k < |status| ==> status[k] == (types[k], ParserFor(types[k]).Some?)
    {
      if types[n] != Unsupported {
        status := status + [(types[n], ParserFor(types[n]).Some?)];
      }
    }
    forall t | t != Unsupported ensures Reported(status, t) {
      var k := match t
        case Powerpoint => 0 case Pdf => 1 case Word => 2 case Excel => 3 case Text => 4
        case Csv => 5 case Rtf => 6 case Odt => 7 case Unsupported => 0;
      assert status[k].0 == t;
    }
  }
}

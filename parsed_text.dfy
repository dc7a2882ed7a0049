// The three helpers that turn a parser's result dict into one text: the batch pipeline's
// (key priority text, content, slides, sheets), the single-file workflow's (extracted_text,
// text, content, slides, worksheets, sheets) and the upload API's (slide texts, extracted_text,
// file name). A result of None stands for the TypeError Python raises when a non-string
// reaches str.join or a non-iterable is looped over.

module ParsedText {
  import opened Wrappers
  import opened Strings
  import opened PyValues

  /** One spreadsheet row: a list is tab-joined cell by cell, anything else is str(row). */
  function RowText(row: Value): string
  {
    if row.VList? then Join(seq(|row.items|, i requires 0 <= i < |row.items| => PyStr(row.items[i])), "\t")
    else PyStr(row)
  }

  function RowTexts(rows: seq<Value>): (r: seq<Value>)
    ensures |r| == |rows|
    ensures forall i :: 0 <= i < |rows| ==> r[i] == VStr(RowText(rows[i]))
  {
    seq(|rows|, i requires 0 <= i < |rows| => VStr(RowText(rows[i])))
  }

  /** The rows a sheet dict contributes through its "data" list (none when data is not a list). */
  function DataRows(sheet: seq<(string, Value)>): seq<Value>
  {
    match Get(sheet, "data")
    case Some(VList(rows)) => RowTexts(rows)
    case _ => []
  }

  /** Slide parts: a dict slide's "text" value, or a string slide itself. */
  function SlideParts(slides: seq<Value>): seq<Value>
  {
    if slides == [] then []
    else
      var s := slides[0];
      var here :=
        if s.VDict? && HasKey(s.entries, "text") then [Get(s.entries, "text").value]
        else if s.VStr? then [s]
        else [];
      here + SlideParts(slides[1..])
  }

  /** Legacy sheets: each dict sheet that has "data" contributes its rows. */
  function SheetParts(sheets: seq<Value>): seq<Value>
  {
    if sheets == [] then []
    else
      var s := sheets[0];
      var here := if s.VDict? && HasKey(s.entries, "data") then DataRows(s.entries) else [];
      here + SheetParts(sheets[1..])
  }

  /** Worksheets: "text_content" is preferred over "data". */
  function WorksheetParts(sheets: seq<Value>): seq<Value>
  {
    if sheets == [] then []
    else
      var s := sheets[0];
      var here :=
        if s.VDict? && HasKey(s.entries, "text_content") then [Get(s.entries, "text_content").value]
        else if s.VDict? && HasKey(s.entries, "data") then DataRows(s.entries)
        else [];
      here + WorksheetParts(sheets[1..])
  }

  /** The string values of a dict, in order. */
  function StringValues(entries: seq<(string, Value)>): (r: seq<string>)
    ensures |r| <= |entries|
  {
    if entries == [] then []
    else (if entries[0].1.VStr? then [entries[0].1.s] else []) + StringValues(entries[1..])
  }

  /** Strings found in a list: string items and the string values of dict items. */
  function ListStrings(items: seq<Value>): seq<string>
  {
    if items == [] then []
    else
      var it := items[0];
      (if it.VStr? then [it.s] else if it.VDict? then StringValues(it.entries) else [])
        + ListStrings(items[1..])
  }

  /** The fallback scan: top-level strings, string list items, string values of dicts in lists. */
  function FallbackStrings(entries: seq<(string, Value)>): seq<string>
  {
    if entries == [] then []
    else
      var v := entries[0].1;
      (if v.VStr? then [v.s] else if v.VList? then ListStrings(v.items) else [])
        + FallbackStrings(entries[1..])
  }

  function Joined(parts: seq<Value>): Option<Value>
  {
    match JoinValues(parts, "\n")
    case Some(t) => Some(VStr(t))
    case None => None
  }

  function SlidesText(p: seq<(string, Value)>): Option<Value>
    requires HasKey(p, "slides")
  {
    match Iterate(Get(p, "slides").value)
    case Some(slides) => Joined(SlideParts(slides))
    case None => None
  }

  function SheetsText(p: seq<(string, Value)>): Option<Value>
    requires HasKey(p, "sheets")
  {
    match Iterate(Get(p, "sheets").value)
    case Some(sheets) => Joined(SheetParts(sheets))
    case None => None
  }

  function WorksheetsText(p: seq<(string, Value)>): Option<Value>
    requires HasKey(p, "worksheets")
  {
    match Iterate(Get(p, "worksheets").value)
    case Some(sheets) => Joined(WorksheetParts(sheets))
    case None => None
  }

  /** The batch pipeline's helper (parallel processing nodes). */
  function BatchText(p: seq<(string, Value)>): Option<Value>
  {
    if p == [] then Some(VStr(""))
    else if HasKey(p, "text") then Get(p, "text")
    else if HasKey(p, "content") then Get(p, "content")
    else if HasKey(p, "slides") then SlidesText(p)
    else if HasKey(p, "sheets") then SheetsText(p)
    else Some(VStr(Join(FallbackStrings(p), "\n")))
  }

  /** The single-file workflow's helper (file processing nodes). */
  function WorkflowText(p: seq<(string, Value)>): Option<Value>
  {
    if p == [] then Some(VStr(""))
    else if HasKey(p, "extracted_text") then Get(p, "extracted_text")
    else if HasKey(p, "text") then Get(p, "text")
    else if HasKey(p, "content") then Get(p, "content")
    else if HasKey(p, "slides") then SlidesText(p)
    else if HasKey(p, "worksheets") then WorksheetsText(p)
    else if HasKey(p, "sheets") then SheetsText(p)
    else Some(VStr(Join(FallbackStrings(p), "\n")))
  }

  /** Python `needle in v` for a value that is not a dict: None is the TypeError of a non-iterable. */
  function InOther(needle: string, v: Value): Option<bool>
  {
    match v
    case VStr(t) => Some(Contains(t, needle))
    case VList(items) => Some(VStr(needle) in items)
    case VTuple(items) => Some(VStr(needle) in items)
    case _ => None
  }

  /** The text of the TypeError `"slide_text" in slide` raises on a slide that is not iterable. */
  function InTypeError(v: Value): string
  {
    "argument of type '" + TypeName(v) + "' is not iterable"
  }

  /** The text of the TypeError `slide["slide_text"]` raises on a string, list or tuple slide. */
  function BadIndex(v: Value): string
  {
    if v.VStr? then "string indices must be integers, not 'str'"
    else TypeName(v) + " indices must be integers or slices, not str"
  }

  /**
   * One slide of the upload API loop: a dict slide gives its truthy "slide_text", any other
   * slide gives nothing when the test is false and raises TypeError when the test itself or the
   * lookup that follows fails.
   */
  function SlideTextOf(s: Value): Result<seq<Value>, string>
  {
    if s.VDict? then
      Ok(if HasKey(s.entries, "slide_text") && Truthy(Get(s.entries, "slide_text").value)
         then [Get(s.entries, "slide_text").value] else [])
    else
      match InOther("slide_text", s)
      case None => Err(InTypeError(s))
      case Some(false) => Ok([])
      case Some(true) => Err(BadIndex(s))
  }

  /** Upload API slide parts: the slides' contributions in order, or the first slide's TypeError. */
  function SlideTextParts(slides: seq<Value>): Result<seq<Value>, string>
  {
    if slides == [] then Ok([])
    else
      match SlideTextOf(slides[0])
      case Err(m) => Err(m)
      case Ok(here) =>
        match SlideTextParts(slides[1..])
        case Err(m) => Err(m)
        case Ok(rest) => Ok(here + rest)
  }

  function UploadParts(p: seq<(string, Value)>): Result<seq<Value>, string>
  {
    var slides :=
      if HasKey(p, "slides") then
        match Iterate(Get(p, "slides").value)
        case Some(items) => SlideTextParts(items)
        case None => Err(NotIterable(Get(p, "slides").value))
      else Ok([]);
    match slides
    case Err(m) => Err(m)
    case Ok(sp) =>
      var withText := if HasKey(p, "extracted_text") then sp + [Get(p, "extracted_text").value] else sp;
      var withName := if HasKey(p, "file_name") then withText + [VStr("File: " + PyStr(Get(p, "file_name").value))] else withText;
      Ok(withName)
  }

  /** The upload API's helper: the parts joined by a blank line, then stripped, or the TypeError raised. */
  function UploadText(p: seq<(string, Value)>): Result<string, string>
  {
    match UploadParts(p)
    case Err(m) => Err(m)
    case Ok(parts) =>
      match JoinValues(parts, "\n\n")
      case Some(t) => Ok(Strip(t))
      case None => Err(JoinTypeError)
  }

  // ------------------------------------------------------------ properties

  /** The workflow helper agrees with the batch helper on results with neither extracted_text nor worksheets. */
  lemma WorkflowAgreesWithBatch(p: seq<(string, Value)>)
    requires !HasKey(p, "extracted_text") && !HasKey(p, "worksheets")
    ensures WorkflowText(p) == BatchText(p)
  {
  }

  /** A parser result with extracted_text is read from that key by the workflow helper alone. */
  lemma WorkflowPrefersExtractedText(p: seq<(string, Value)>)
    requires HasKey(p, "extracted_text")
    ensures WorkflowText(p) == Get(p, "extracted_text")
    ensures HasKey(p, "text") ==> BatchText(p) == Get(p, "text")
  {
  }

  /** A dict whose values are all strings falls back to those strings, in key order. */
  lemma {:induction false} FallbackAllStrings(entries: seq<(string, Value)>)
    requires forall i :: 0 <= i < |entries| ==> entries[i].1.VStr?
    ensures FallbackStrings(entries) == seq(|entries|, i requires 0 <= i < |entries| => entries[i].1.s)
  {
    if entries != [] {
      FallbackAllStrings(entries[1..]);
    }
  }

  /** Only strings reach the fallback text: dicts nested deeper than one list are ignored. */
  lemma {:induction false} FallbackIgnoresNested(entries: seq<(string, Value)>)
    requires forall i :: 0 <= i < |entries| ==> entries[i].1.VDict?
    ensures FallbackStrings(entries) == []
  {
    if entries != [] {
      FallbackIgnoresNested(entries[1..]);
    }
  }

  /**
   * Worksheets that all carry text_content contribute exactly those texts, in order, whatever
   * "data" they also hold.
   */
  lemma {:induction false} TextContentWins(sheets: seq<Value>)
    requires forall i :: 0 <= i < |sheets| ==> sheets[i].VDict? && HasKey(sheets[i].entries, "text_content")
    ensures WorksheetParts(sheets) ==
      seq(|sheets|, i requires 0 <= i < |sheets| && sheets[i].VDict? && HasKey(sheets[i].entries, "text_content") =>
        Get(sheets[i].entries, "text_content").value)
  {
    if sheets != [] {
      TextContentWins(sheets[1..]);
    }
  }

  /** String slides are taken as they are. */
  lemma {:induction false} StringSlidesKept(slides: seq<Value>)
    requires forall i :: 0 <= i < |slides| ==> slides[i].VStr?
    ensures SlideParts(slides) == slides
  {
    if slides != [] {
      StringSlidesKept(slides[1..]);
    }
  }

  /**
   * A slide that is not a dict raises TypeError exactly when it is not a string, list or tuple,
   * or when it is one that holds "slide_text"; otherwise it contributes nothing.
   */
  lemma NonDictSlide(s: Value)
    requires !s.VDict?
    ensures SlideTextOf(s).Err? <==>
      !(s.VStr? || s.VList? || s.VTuple?)
      || (s.VStr? && Contains(s.s, "slide_text"))
      || ((s.VList? || s.VTuple?) && VStr("slide_text") in s.items)
    ensures SlideTextOf(s).Ok? ==> SlideTextOf(s).value == []
  {
  }

  /** An int slide raises TypeError, so the upload helper gives no text for it. */
  lemma IntSlideRaises(p: seq<(string, Value)>, n: int)
    requires p == [("slides", VList([VInt(n)])), ("extracted_text", VStr("x"))]
    ensures UploadText(p) == Err("argument of type 'int' is not iterable")
  {
    assert p[0].0 == "slides";
    assert HasKey(p, "slides");
    assert Get(p, "slides") == Some(VList([VInt(n)]));
    assert SlideTextParts([VInt(n)]) == Err(InTypeError(VInt(n)));
    assert UploadParts(p) == Err(InTypeError(VInt(n)));
    assert InTypeError(VInt(n)) == "argument of type 'int' is not iterable";
  }

  /** The slide loop raises exactly when some slide raises, and then with the first slide's error. */
  lemma {:induction false} SlideTextPartsRaise(slides: seq<Value>)
    ensures SlideTextParts(slides).Err? <==> exists i :: 0 <= i < |slides| && SlideTextOf(slides[i]).Err?
    ensures SlideTextParts(slides).Err? ==>
      exists i :: 0 <= i < |slides| && SlideTextOf(slides[i]) == Err(SlideTextParts(slides).error) &&
        (forall j :: 0 <= j < i ==> SlideTextOf(slides[j]).Ok?)
  {
    if slides != [] {
      SlideTextPartsRaise(slides[1..]);
      if SlideTextOf(slides[0]).Ok? {
        if SlideTextParts(slides[1..]).Err? {
          var i :| 0 <= i < |slides[1..]| && SlideTextOf(slides[1..][i]) == Err(SlideTextParts(slides[1..]).error) &&
            (forall j :: 0 <= j < i ==> SlideTextOf(slides[1..][j]).Ok?);
          assert SlideTextOf(slides[i + 1]) == Err(SlideTextParts(slides).error);
          forall j | 0 <= j < i + 1
            ensures SlideTextOf(slides[j]).Ok?
          {
            if j > 0 {
              assert slides[j] == slides[1..][j - 1];
            }
          }
        } else {
          forall i | 0 <= i < |slides|
            ensures SlideTextOf(slides[i]).Ok?
          {
            if i > 0 {
              assert slides[i] == slides[1..][i - 1];
            }
          }
        }
      }
    }
  }

  /**
   * Every slide text the upload helper takes is truthy, at most one per slide, and a list of
   * dict slides never raises.
   */
  lemma {:induction false} SlideTextPartsTruthy(slides: seq<Value>)
    ensures (forall i :: 0 <= i < |slides| ==> slides[i].VDict?) ==> SlideTextParts(slides).Ok?
    ensures SlideTextParts(slides).Ok? ==> |SlideTextParts(slides).value| <= |slides|
    ensures SlideTextParts(slides).Ok? ==>
      forall i :: 0 <= i < |SlideTextParts(slides).value| ==> Truthy(SlideTextParts(slides).value[i])
  {
    if slides != [] {
      SlideTextPartsTruthy(slides[1..]);
      if forall i :: 0 <= i < |slides| ==> slides[i].VDict? {
        assert forall i :: 0 <= i < |slides[1..]| ==> slides[1..][i] == slides[i + 1];
      }
    }
  }

  /** A result without slides, extracted_text or file_name gives the empty text. */
  lemma UploadEmpty(p: seq<(string, Value)>)
    requires !HasKey(p, "slides") && !HasKey(p, "extracted_text") && !HasKey(p, "file_name")
    ensures UploadText(p) == Ok("")
  {
  }

  /**
   * With slides, extracted_text and file_name, the parts are the truthy slide texts, then the
   * extracted text, then the file line: a PowerPoint result, whose extracted_text is built from
   * the same slide texts, carries them twice. A slide that raises makes the whole helper raise.
   */
  lemma UploadOrder(p: seq<(string, Value)>, slides: seq<Value>)
    requires HasKey(p, "slides") && Iterate(Get(p, "slides").value) == Some(slides)
    requires HasKey(p, "extracted_text") && HasKey(p, "file_name")
    ensures SlideTextParts(slides).Err? ==> UploadParts(p) == Err(SlideTextParts(slides).error)
    ensures SlideTextParts(slides).Ok? ==> UploadParts(p) == Ok(SlideTextParts(slides).value
      + [Get(p, "extracted_text").value] + [VStr("File: " + PyStr(Get(p, "file_name").value))])
  {
  }
}

// The PowerPoint parser. The presentation library is reduced to the shape tree it hands back:
// text frames as paragraphs of run texts, tables as rows of cells (each a text frame), groups
// with their sub-shapes, pictures with the text the OCR step produced for them, and any other
// shape with its `text` attribute ("" when it has none).

module PowerPointParsing {
  import opened Wrappers
  import opened Strings
  import FileRouting

  /** A paragraph is the texts of its runs. */
  type Paragraph = seq<string>

  /** A table cell is the paragraphs of its text frame. */
  type Cell = seq<Paragraph>

  datatype Shape =
    | TextBox(paragraphs: seq<Paragraph>)
    | Picture(ocrText: string)
    | TableShape(rows: seq<seq<Cell>>)
    | Group(children: seq<Shape>)
    | Other(text: string)

  /** The `type` entry of a shape record. */
  datatype ShapeKind = TextKind | ImageKind | TableKind | GroupKind | PlainKind

  /** A shape record: its type, its `text` and its `ocr_text`. */
  datatype ShapeData = ShapeData(kind: ShapeKind, text: string, ocrText: string)

  datatype SlideData = SlideData(
    slideNumber: nat, slideText: string,
    textBoxes: seq<ShapeData>, images: seq<ShapeData>, tables: seq<ShapeData>, shapes: seq<ShapeData>,
    textBoxCount: nat, imagesProcessed: nat, tablesProcessed: nat, shapesProcessed: nat,
    ocrUsed: bool)

  datatype Summary = Summary(textBoxes: nat, imagesProcessed: nat, tablesProcessed: nat, shapesProcessed: nat)

  /** The dict parse_powerpoint returns: the full record, or the error record of a failed load. */
  datatype PptResult =
    | Parsed(filePath: string, fileName: string, totalSlides: nat, slides: seq<SlideData>,
             extractedText: string, ocrUsed: bool, summary: Summary)
    | Failed(error: string, filePath: string, fileName: string)

  // ------------------------------------------------------------ text frames and tables

  function ParagraphTexts(paragraphs: seq<Paragraph>): (r: seq<string>)
    ensures |r| == |paragraphs|
    ensures forall i :: 0 <= i < |paragraphs| ==> r[i] == Concat(paragraphs[i])
  {
    seq(|paragraphs|, i requires 0 <= i < |paragraphs| => Concat(paragraphs[i]))
  }

  /** _extract_text_from_frame: each paragraph's runs followed by a newline, then stripped. */
  function FrameText(paragraphs: seq<Paragraph>): string
  {
    Strip(Terminated(ParagraphTexts(paragraphs), "\n"))
  }

  /** A cell's text: all runs of all its paragraphs, with nothing between paragraphs, stripped. */
  function CellText(cell: Cell): string
  {
    Strip(Concat(ParagraphTexts(cell)))
  }

  function CellTexts(row: seq<Cell>): (r: seq<string>)
    ensures |r| == |row|
  {
    MapSeq(CellText, row)
  }

  function RowText(row: seq<Cell>): string
  {
    Join(CellTexts(row), " | ")
  }

  function RowTexts(rows: seq<seq<Cell>>): (r: seq<string>)
    ensures |r| == |rows|
    ensures forall i :: 0 <= i < |rows| ==> r[i] == RowText(rows[i])
  {
    seq(|rows|, i requires 0 <= i < |rows| => RowText(rows[i]))
  }

  /** _extract_text_from_table: each row's cells joined by " | " and a newline, then stripped. */
  function TableText(rows: seq<seq<Cell>>): string
  {
    Strip(Terminated(RowTexts(rows), "\n"))
  }

  /** The runs of one paragraph appended to the text built so far. */
  method AppendRuns(text: string, runs: Paragraph) returns (r: string)
    ensures r == text + Concat(runs)
  {
    r := text;
    for j := 0 to |runs|
      invariant r == text + Concat(runs[..j])
    {
      ConcatSnoc(runs[..j], runs[j]);
      assert runs[..j + 1] == runs[..j] + [runs[j]];
      r := r + runs[j];
    }
    assert runs[..|runs|] == runs;
  }

  method ExtractTextFromFrame(paragraphs: seq<Paragraph>) returns (text: string)
    ensures text == FrameText(paragraphs)
  {
    text := "";
    for i := 0 to |paragraphs|
      invariant text == Terminated(ParagraphTexts(paragraphs[..i]), "\n")
    {
      text := AppendRuns(text, paragraphs[i]);
      text := text + "\n";
      assert ParagraphTexts(paragraphs[..i + 1]) == ParagraphTexts(paragraphs[..i]) + [Concat(paragraphs[i])];
      TerminatedSnoc(ParagraphTexts(paragraphs[..i]), Concat(paragraphs[i]), "\n");
    }
    assert paragraphs[..|paragraphs|] == paragraphs;
    text := Strip(text);
  }

  /** The text of one table cell, as the table loop builds it. */
  method ExtractCellText(cell: Cell) returns (text: string)
    ensures text == CellText(cell)
  {
    var cellText := "";
    for k := 0 to |cell|
      invariant cellText == Concat(ParagraphTexts(cell[..k]))
    {
      assert ParagraphTexts(cell[..k + 1]) == ParagraphTexts(cell[..k]) + [Concat(cell[k])];
      ConcatSnoc(ParagraphTexts(cell[..k]), Concat(cell[k]));
      cellText := AppendRuns(cellText, cell[k]);
    }
    assert cell[..|cell|] == cell;
    text := Strip(cellText);
  }

  method ExtractRowText(row: seq<Cell>) returns (text: string)
    ensures text == RowText(row)
  {
    var rowText: seq<string> := [];
    for j := 0 to |row|
      invariant rowText == CellTexts(row[..j])
    {
      var cellText := ExtractCellText(row[j]);
      CellTextsSnoc(row, j);
      rowText := rowText + [cellText];
    }
    assert row[..|row|] == row;
    text := Join(rowText, " | ");
  }

  method ExtractTextFromTable(rows: seq<seq<Cell>>) returns (text: string)
    ensures text == TableText(rows)
  {
    text := "";
    for i := 0 to |rows|
      invariant text == Terminated(RowTexts(rows[..i]), "\n")
    {
      var rowText := ExtractRowText(rows[i]);
      text := text + rowText + "\n";
      RowTextsSnoc(rows, i);
    }
    assert rows[..|rows|] == rows;
    text := Strip(text);
  }

  lemma CellTextsSnoc(row: seq<Cell>, j: nat)
    requires j < |row|
    ensures CellTexts(row[..j + 1]) == CellTexts(row[..j]) + [CellText(row[j])]
  {
    MapSeqStep(CellText, row, j);
  }

  lemma RowTextsSnoc(rows: seq<seq<Cell>>, i: nat)
    requires i < |rows|
    ensures Terminated(RowTexts(rows[..i + 1]), "\n") == Terminated(RowTexts(rows[..i]), "\n") + RowText(rows[i]) + "\n"
  {
    assert RowTexts(rows[..i + 1]) == RowTexts(rows[..i]) + [RowText(rows[i])];
    TerminatedSnoc(RowTexts(rows[..i]), RowText(rows[i]), "\n");
  }

  /** A frame's text is its paragraphs joined by newlines and stripped: the last newline is lost. */
  lemma FrameAsJoin(paragraphs: seq<Paragraph>)
    ensures FrameText(paragraphs) == Strip(Join(ParagraphTexts(paragraphs), "\n"))
  {
    StripTerminated(ParagraphTexts(paragraphs));
  }

  /** A table's text is its rows joined by newlines and stripped. */
  lemma TableAsJoin(rows: seq<seq<Cell>>)
    ensures TableText(rows) == Strip(Join(RowTexts(rows), "\n"))
  {
    StripTerminated(RowTexts(rows));
  }

  // ------------------------------------------------------------ shapes

  /** The record _process_shape returns for a shape. */
  function ShapeOf(s: Shape): ShapeData
    decreases s, 1
  {
    match s
    case TextBox(paragraphs) => ShapeData(TextKind, FrameText(paragraphs), "")
    case Picture(ocr) => ShapeData(ImageKind, "", ocr)
    case TableShape(rows) => ShapeData(TableKind, TableText(rows), "")
    case Group(children) => GroupRecord(ShapesOf(children))
    case Other(text) => ShapeData(PlainKind, text, "")
  }

  function ShapesOf(shapes: seq<Shape>): (r: seq<ShapeData>)
    decreases shapes, 0
    ensures |r| == |shapes|
  {
    if shapes == [] then [] else ShapesOf(shapes[..|shapes| - 1]) + [ShapeOf(shapes[|shapes| - 1])]
  }

  /** What one sub-shape adds to its group's text: its text, then its OCR text, each when non-empty. */
  function GroupPiece(d: ShapeData): string
  {
    (if d.text != "" then d.text + "\n" else "") + (if d.ocrText != "" then d.ocrText + "\n" else "")
  }

  /** A group's record: the stripped text its sub-shapes' records contribute. */
  function GroupRecord(datas: seq<ShapeData>): ShapeData
  {
    ShapeData(GroupKind, Strip(GroupText(datas)), "")
  }

  /** A group's text before stripping. */
  function GroupText(datas: seq<ShapeData>): string
  {
    if datas == [] then "" else GroupText(datas[..|datas| - 1]) + GroupPiece(datas[|datas| - 1])
  }

  /** _process_shape, recursive on groups; a shape's own exceptions are not modelled. */
  method ProcessShape(s: Shape) returns (d: ShapeData)
    decreases s, 1
    ensures d == ShapeOf(s)
  {
    match s {
      case TextBox(paragraphs) =>
        var text := ExtractTextFromFrame(paragraphs);
        d := ShapeData(TextKind, text, "");
      case Picture(ocr) =>
        d := ShapeData(ImageKind, "", ocr);
      case TableShape(rows) =>
        var text := ExtractTextFromTable(rows);
        d := ShapeData(TableKind, text, "");
      case Group(children) =>
        d := ProcessGroup(children);
      case Other(text) =>
        d := ShapeData(PlainKind, text, "");
    }
  }

  /** The group branch of _process_shape: the sub-shape loop, then the stripped text. */
  method ProcessGroup(children: seq<Shape>) returns (d: ShapeData)
    decreases children, 0
    ensures d == GroupRecord(ShapesOf(children))
  {
    var groupText := "";
    for i := 0 to |children|
      invariant groupText == GroupText(ShapesOf(children[..i]))
    {
      var sub := ProcessShape(children[i]);
      groupText := AddPiece(groupText, sub);
      GroupStep(children, i);
    }
    assert children[..|children|] == children;
    d := ShapeData(GroupKind, Strip(groupText), "");
  }

  /** The body of the sub-shape loop: the sub-shape's text, then its OCR text, when non-empty. */
  method AddPiece(groupText0: string, sub: ShapeData) returns (groupText: string)
    ensures groupText == groupText0 + GroupPiece(sub)
  {
    groupText := groupText0;
    if sub.text != "" {
      groupText := groupText + sub.text + "\n";
    }
    if sub.ocrText != "" {
      groupText := groupText + sub.ocrText + "\n";
    }
  }

  lemma GroupStep(children: seq<Shape>, i: nat)
    requires i < |children|
    ensures GroupText(ShapesOf(children[..i + 1])) == GroupText(ShapesOf(children[..i])) + GroupPiece(ShapeOf(children[i]))
  {
    assert children[..i + 1][..i] == children[..i];
  }

  // ------------------------------------------------------------ slides

  function EmptySlide(number: nat): SlideData
  {
    SlideData(number, "", [], [], [], [], 0, 0, 0, 0, false)
  }

  /** One iteration of _process_slide's shape loop. A group record matches no branch. */
  function AddShape(slide: SlideData, d: ShapeData): SlideData
  {
    match d.kind
    case TextKind =>
      slide.(textBoxes := slide.textBoxes + [d], textBoxCount := slide.textBoxCount + 1,
             slideText := slide.slideText + d.text + "\n")
    case ImageKind =>
      var s := slide.(images := slide.images + [d], imagesProcessed := slide.imagesProcessed + 1);
      if d.ocrText != "" then s.(slideText := s.slideText + d.ocrText + "\n", ocrUsed := true) else s
    case TableKind =>
      slide.(tables := slide.tables + [d], tablesProcessed := slide.tablesProcessed + 1,
             slideText := slide.slideText + d.text + "\n")
    case PlainKind =>
      var s := slide.(shapes := slide.shapes + [d], shapesProcessed := slide.shapesProcessed + 1);
      if d.text != "" then s.(slideText := s.slideText + d.text + "\n") else s
    case GroupKind => slide
  }

  function AddShapes(slide: SlideData, datas: seq<ShapeData>): SlideData
  {
    if datas == [] then slide else AddShape(AddShapes(slide, datas[..|datas| - 1]), datas[|datas| - 1])
  }

  /** The record _process_slide returns. */
  function SlideOf(number: nat, shapes: seq<Shape>): SlideData
  {
    var s := AddShapes(EmptySlide(number), ShapesOf(shapes));
    s.(slideText := Strip(s.slideText))
  }

  method ProcessSlide(number: nat, shapes: seq<Shape>) returns (slide: SlideData)
    ensures slide == SlideOf(number, shapes)
  {
    slide := EmptySlide(number);
    for i := 0 to |shapes|
      invariant slide == AddShapes(EmptySlide(number), ShapesOf(shapes[..i]))
    {
      var d := ProcessShape(shapes[i]);
      slide := RecordShape(slide, d);
      SlideStep(number, shapes, i);
    }
    assert shapes[..|shapes|] == shapes;
    slide := slide.(slideText := Strip(slide.slideText));
  }

  /** The body of _process_slide's shape loop: file the record under its kind. */
  method RecordShape(slide0: SlideData, d: ShapeData) returns (slide: SlideData)
    ensures slide == AddShape(slide0, d)
  {
    slide := slide0;
    if d.kind == TextKind {
      slide := slide.(textBoxes := slide.textBoxes + [d]);
      slide := slide.(textBoxCount := slide.textBoxCount + 1);
      slide := slide.(slideText := slide.slideText + d.text + "\n");
    } else if d.kind == ImageKind {
      slide := slide.(images := slide.images + [d]);
      slide := slide.(imagesProcessed := slide.imagesProcessed + 1);
      if d.ocrText != "" {
        slide := slide.(slideText := slide.slideText + d.ocrText + "\n");
        slide := slide.(ocrUsed := true);
      }
    } else if d.kind == TableKind {
      slide := slide.(tables := slide.tables + [d]);
      slide := slide.(tablesProcessed := slide.tablesProcessed + 1);
      slide := slide.(slideText := slide.slideText + d.text + "\n");
    } else if d.kind == PlainKind {
      slide := slide.(shapes := slide.shapes + [d]);
      slide := slide.(shapesProcessed := slide.shapesProcessed + 1);
      if d.text != "" {
        slide := slide.(slideText := slide.slideText + d.text + "\n");
      }
    }
  }

  lemma SlideStep(number: nat, shapes: seq<Shape>, i: nat)
    requires i < |shapes|
    ensures AddShapes(EmptySlide(number), ShapesOf(shapes[..i + 1]))
      == AddShape(AddShapes(EmptySlide(number), ShapesOf(shapes[..i])), ShapeOf(shapes[i]))
  {
    assert shapes[..i + 1][..i] == shapes[..i];
  }

  /** The number of records of one kind. */
  function KindCount(datas: seq<ShapeData>, k: ShapeKind): nat
  {
    if datas == [] then 0
    else KindCount(datas[..|datas| - 1], k) + (if datas[|datas| - 1].kind == k then 1 else 0)
  }

  /** The records of one kind, in order. */
  function OfKind(datas: seq<ShapeData>, k: ShapeKind): seq<ShapeData>
  {
    if datas == [] then []
    else OfKind(datas[..|datas| - 1], k) + (if datas[|datas| - 1].kind == k then [datas[|datas| - 1]] else [])
  }

  /** The strings a record contributes to its slide's text, each then followed by a newline. */
  function Contribution(d: ShapeData): seq<string>
  {
    match d.kind
    case TextKind => [d.text]
    case TableKind => [d.text]
    case ImageKind => if d.ocrText != "" then [d.ocrText] else []
    case PlainKind => if d.text != "" then [d.text] else []
    case GroupKind => []
  }

  function Contributions(datas: seq<ShapeData>): seq<string>
  {
    if datas == [] then [] else Contributions(datas[..|datas| - 1]) + Contribution(datas[|datas| - 1])
  }

  /** An image record with OCR text. */
  predicate ReadByOcr(d: ShapeData)
  {
    d.kind == ImageKind && d.ocrText != ""
  }

  lemma {:induction false} TerminatedAppend(xs: seq<string>, ys: seq<string>, term: string)
    ensures Terminated(xs + ys, term) == Terminated(xs, term) + Terminated(ys, term)
  {
    if xs == [] {
      assert xs + ys == ys;
    } else {
      assert (xs + ys)[1..] == xs[1..] + ys;
      TerminatedAppend(xs[1..], ys, term);
    }
  }

  /** The shape loop files each record under its kind, in order, and counts it. */
  lemma {:induction false} AddShapesLists(number: nat, datas: seq<ShapeData>)
    ensures var s := AddShapes(EmptySlide(number), datas);
      s.slideNumber == number
      && s.textBoxes == OfKind(datas, TextKind) && s.textBoxCount == |s.textBoxes|
      && s.images == OfKind(datas, ImageKind) && s.imagesProcessed == |s.images|
      && s.tables == OfKind(datas, TableKind) && s.tablesProcessed == |s.tables|
      && s.shapes == OfKind(datas, PlainKind) && s.shapesProcessed == |s.shapes|
  {
    if datas != [] {
      AddShapesLists(number, datas[..|datas| - 1]);
    }
  }

  /** One record adds its contribution, each string followed by a newline, to the slide text. */
  lemma AddShapeText(slide: SlideData, d: ShapeData)
    ensures AddShape(slide, d).slideText == slide.slideText + Terminated(Contribution(d), "\n")
  {
    var c := Contribution(d);
    if c != [] {
      assert c[1..] == [];
    }
  }

  /** The slide text before stripping is the contributions, each followed by a newline. */
  lemma {:induction false} AddShapesText(number: nat, datas: seq<ShapeData>)
    ensures AddShapes(EmptySlide(number), datas).slideText == Terminated(Contributions(datas), "\n")
  {
    if datas != [] {
      var init := datas[..|datas| - 1];
      var d := datas[|datas| - 1];
      AddShapesText(number, init);
      AddShapeText(AddShapes(EmptySlide(number), init), d);
      TerminatedAppend(Contributions(init), Contribution(d), "\n");
    }
  }

  /** A slide's OCR flag is set exactly when some image on it had OCR text. */
  lemma {:induction false} AddShapesOcr(number: nat, datas: seq<ShapeData>)
    ensures AddShapes(EmptySlide(number), datas).ocrUsed <==> exists i :: 0 <= i < |datas| && ReadByOcr(datas[i])
  {
    if datas != [] {
      var init := datas[..|datas| - 1];
      AddShapesOcr(number, init);
      if exists i :: 0 <= i < |init| && ReadByOcr(init[i]) {
        var i :| 0 <= i < |init| && ReadByOcr(init[i]);
        assert datas[i] == init[i];
      }
      if exists i :: 0 <= i < |datas| && ReadByOcr(datas[i]) {
        var i :| 0 <= i < |datas| && ReadByOcr(datas[i]);
        if i < |init| {
          assert init[i] == datas[i];
        }
      }
    }
  }

  /** The records of one kind are those the kind count counts. */
  lemma {:induction false} OfKindCount(datas: seq<ShapeData>, k: ShapeKind)
    ensures |OfKind(datas, k)| == KindCount(datas, k)
  {
    if datas != [] {
      OfKindCount(datas[..|datas| - 1], k);
    }
  }

  /** Every record has exactly one kind: the five counts add up to the number of shapes. */
  lemma {:induction false} KindCountsSum(datas: seq<ShapeData>)
    ensures KindCount(datas, TextKind) + KindCount(datas, ImageKind) + KindCount(datas, TableKind)
      + KindCount(datas, PlainKind) + KindCount(datas, GroupKind) == |datas|
  {
    if datas != [] {
      KindCountsSum(datas[..|datas| - 1]);
    }
  }

  /** A group record changes nothing in the slide, wherever it stands among the shapes. */
  lemma {:induction false} GroupRecordIgnored(slide: SlideData, xs: seq<ShapeData>, g: ShapeData, ys: seq<ShapeData>)
    requires g.kind == GroupKind
    ensures AddShapes(slide, xs + [g] + ys) == AddShapes(slide, xs + ys)
  {
    if ys == [] {
      assert xs + [g] + ys == xs + [g];
      assert (xs + [g])[..|xs|] == xs;
      assert xs + ys == xs;
    } else {
      var ys' := ys[..|ys| - 1];
      var y := ys[|ys| - 1];
      GroupRecordIgnored(slide, xs, g, ys');
      assert (xs + [g] + ys)[..|xs + [g] + ys| - 1] == xs + [g] + ys';
      assert (xs + ys)[..|xs + ys| - 1] == xs + ys';
    }
  }

  /** A group shape contributes neither text nor a count to its slide. */
  lemma GroupShapeIgnored(number: nat, xs: seq<Shape>, children: seq<Shape>, ys: seq<Shape>)
    ensures SlideOf(number, xs + [Group(children)] + ys) == SlideOf(number, xs + ys)
  {
    var g := ShapeOf(Group(children));
    ShapesOfAppend(xs + [Group(children)], ys);
    ShapesOfAppend(xs, [Group(children)]);
    ShapesOfAppend(xs, ys);
    assert ShapesOf([Group(children)]) == [g];
    assert ShapesOf(xs + [Group(children)] + ys) == ShapesOf(xs) + [g] + ShapesOf(ys);
    GroupRecordIgnored(EmptySlide(number), ShapesOf(xs), g, ShapesOf(ys));
  }

  lemma {:induction false} ShapesOfAppend(xs: seq<Shape>, ys: seq<Shape>)
    ensures ShapesOf(xs + ys) == ShapesOf(xs) + ShapesOf(ys)
    decreases |ys|
  {
    if ys == [] {
      assert xs + ys == xs;
    } else {
      var ys' := ys[..|ys| - 1];
      assert (xs + ys)[..|xs + ys| - 1] == xs + ys';
      ShapesOfAppend(xs, ys');
    }
  }

  // ------------------------------------------------------------ the presentation

  function SlideTexts(slides: seq<SlideData>): (r: seq<string>)
    ensures |r| == |slides|
  {
    if slides == [] then [] else SlideTexts(slides[..|slides| - 1]) + [slides[|slides| - 1].slideText]
  }

  /** The processing summary: the per-slide counters added up. */
  function SumSlides(slides: seq<SlideData>): Summary
  {
    if slides == [] then Summary(0, 0, 0, 0)
    else
      var s := SumSlides(slides[..|slides| - 1]);
      var last := slides[|slides| - 1];
      Summary(s.textBoxes + last.textBoxCount, s.imagesProcessed + last.imagesProcessed,
        s.tablesProcessed + last.tablesProcessed, s.shapesProcessed + last.shapesProcessed)
  }

  /** The slide records, numbered from 1. */
  function SlidesOf(presentation: seq<seq<Shape>>): (r: seq<SlideData>)
    ensures |r| == |presentation|
  {
    MapNumbered(SlideOf, presentation)
  }

  lemma SlidesOfIndex(presentation: seq<seq<Shape>>, i: nat)
    requires i < |presentation|
    ensures SlidesOf(presentation)[i] == SlideOf(i + 1, presentation[i])
  {
    MapNumberedAt(SlideOf, presentation);
  }

  /**
   * parse_powerpoint. `loaded` is the library's presentation (each slide its shapes) or the
   * message of the exception loading it raised.
   */
  method ParsePowerpoint(path: string, loaded: Result<seq<seq<Shape>>, string>) returns (r: PptResult)
    ensures loaded.Err? ==> r == Failed("Failed to parse PowerPoint file: " + loaded.error, path, Basename(path))
    ensures loaded.Ok? ==>
      r.Parsed? && r.filePath == path && r.fileName == Basename(path)
      && r.totalSlides == |loaded.value| && r.slides == SlidesOf(loaded.value)
      && r.extractedText == Strip(Terminated(SlideTexts(r.slides), "\n"))
      && !r.ocrUsed
      && r.summary == SumSlides(r.slides)
  {
    if loaded.Err? {
      return Failed("Failed to parse PowerPoint file: " + loaded.error, path, Basename(path));
    }
    var presentation := loaded.value;
    var slides, summary, text := CollectSlides(presentation);
    r := Parsed(path, Basename(path), |presentation|, slides, Strip(text), false, summary);
  }

  /** The slide loop of parse_powerpoint. */
  method CollectSlides(presentation: seq<seq<Shape>>) returns (slides: seq<SlideData>, summary: Summary, text: string)
    ensures slides == SlidesOf(presentation)
    ensures summary == SumSlides(slides)
    ensures text == Terminated(SlideTexts(slides), "\n")
  {
    slides := [];
    summary := Summary(0, 0, 0, 0);
    text := "";
    for i := 0 to |presentation|
      invariant slides == SlidesOf(presentation[..i])
      invariant summary == SumSlides(slides)
      invariant text == Terminated(SlideTexts(slides), "\n")
    {
      var slide := ProcessSlide(i + 1, presentation[i]);
      SlidesOfSnoc(presentation, i);
      SumSlidesSnoc(slides, slide);
      SlideTextsSnoc(slides, slide);
      slides := slides + [slide];
      summary := Summary(summary.textBoxes + slide.textBoxCount, summary.imagesProcessed + slide.imagesProcessed,
        summary.tablesProcessed + slide.tablesProcessed, summary.shapesProcessed + slide.shapesProcessed);
      text := text + slide.slideText + "\n";
    }
    assert presentation[..|presentation|] == presentation;
  }

  lemma SlidesOfSnoc(presentation: seq<seq<Shape>>, i: nat)
    requires i < |presentation|
    ensures SlidesOf(presentation[..i + 1]) == SlidesOf(presentation[..i]) + [SlideOf(i + 1, presentation[i])]
  {
    var p := presentation[..i + 1];
    assert p[..i] == presentation[..i];
    assert p[i] == presentation[i];
  }

  lemma SumSlidesSnoc(slides: seq<SlideData>, slide: SlideData)
    ensures var s := SumSlides(slides);
      SumSlides(slides + [slide]) == Summary(s.textBoxes + slide.textBoxCount, s.imagesProcessed + slide.imagesProcessed,
        s.tablesProcessed + slide.tablesProcessed, s.shapesProcessed + slide.shapesProcessed)
  {
    assert (slides + [slide])[..|slides|] == slides;
  }

  lemma SlideTextsSnoc(slides: seq<SlideData>, slide: SlideData)
    ensures Terminated(SlideTexts(slides + [slide]), "\n") == Terminated(SlideTexts(slides), "\n") + slide.slideText + "\n"
  {
    assert (slides + [slide])[..|slides|] == slides;
    TerminatedSnoc(SlideTexts(slides), slide.slideText, "\n");
  }

  /**
   * parse_powerpoint_from_bytes: the bytes are written to a temporary file at `tempPath`, which
   * is parsed; the result, a failure included, then carries the given filename.
   */
  method ParsePowerpointFromBytes(filename: string, tempPath: string, loaded: Result<seq<seq<Shape>>, string>)
    returns (r: PptResult)
    ensures r.fileName == filename
    ensures loaded.Err? ==> r == Failed("Failed to parse PowerPoint file: " + loaded.error, tempPath, filename)
    ensures loaded.Ok? ==>
      r.Parsed? && r.filePath == tempPath && r.totalSlides == |loaded.value| && r.slides == SlidesOf(loaded.value)
      && r.extractedText == Strip(Terminated(SlideTexts(r.slides), "\n"))
      && !r.ocrUsed && r.summary == SumSlides(r.slides)
  {
    r := ParsePowerpoint(tempPath, loaded);
    r := r.(fileName := filename);
  }

  /** The presentation text is the slide texts joined by newlines and stripped. */
  lemma ExtractedTextAsJoin(slides: seq<SlideData>)
    ensures Strip(Terminated(SlideTexts(slides), "\n")) == Strip(Join(SlideTexts(slides), "\n"))
  {
    StripTerminated(SlideTexts(slides));
  }

  /** The summary's text-box count is the number of text frames over all slides. */
  lemma {:induction false} SummaryCountsTextBoxes(presentation: seq<seq<Shape>>)
    ensures SumSlides(SlidesOf(presentation)).textBoxes == TextBoxTotal(presentation)
  {
    if presentation != [] {
      var n := |presentation| - 1;
      SummaryCountsTextBoxes(presentation[..n]);
      SumSlidesSnoc(SlidesOf(presentation[..n]), SlideOf(n + 1, presentation[n]));
      AddShapesLists(n + 1, ShapesOf(presentation[n]));
      OfKindCount(ShapesOf(presentation[n]), TextKind);
    }
  }

  /** The number of text-frame shapes over all slides (groups' sub-shapes not counted). */
  function TextBoxTotal(presentation: seq<seq<Shape>>): nat
  {
    if presentation == [] then 0
    else TextBoxTotal(presentation[..|presentation| - 1]) + KindCount(ShapesOf(presentation[|presentation| - 1]), TextKind)
  }

  // ------------------------------------------------------------ validation

  const SupportedFormats: seq<string> := [".pptx", ".ppt"]

  /**
   * validate_file. `fileExists` says whether the path exists; `openError` is the message of the
   * exception opening the presentation raised, if any.
   */
  function ValidateFile(path: string, fileExists: bool, openError: Option<string>): (r: (bool, string))
    ensures r.0 <==> fileExists && Lower(FileRouting.Suffix(path)) in SupportedFormats && openError.None?
    ensures r.0 ==> r.1 == ""
    ensures !fileExists ==> r.1 == "File does not exist"
  {
    var ext := Lower(FileRouting.Suffix(path));
    if !fileExists then (false, "File does not exist")
    else if ext !in SupportedFormats then (false, "Unsupported file format: " + ext)
    else if openError.Some? then (false, "Invalid PowerPoint file: " + openError.value)
    else (true, "")
  }

  /** A file this parser accepts is one the router sends to it. */
  lemma ValidIsRoutedHere(path: string, fileExists: bool, openError: Option<string>)
    requires ValidateFile(path, fileExists, openError).0
    ensures FileRouting.GetFileType(path) == FileRouting.Powerpoint
  {
    FileRouting.PowerpointRouted(path);
  }
}
